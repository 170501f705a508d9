/**
 * Client code of the wrapper: the two unit tests of the wrapper and the
 * batch-then-commit usage, proved from the contracts of `Indexing` alone.
 */
module Scenarios {
  import opened Results
  import opened Schemas
  import opened Documents
  import opened Indexing

  /** `test_init_index`: a title field plus one body field gives a two-field schema. */
  method InitIndexScenario() returns (numFields: nat, names: seq<string>)
    ensures numFields == 2
    ensures names == ["title", "body"]
  {
    var index := new Index("title", ["body"]);
    numFields := |index.schema|;
    names := index.FieldNames();
  }

  /** `test_indexing`: one transient add on a fresh index leaves one committed document. */
  method IndexingScenario() returns (numDocs: nat)
    ensures numDocs == 1
  {
    var index := new Index("title", ["body"]);
    var doc := map["title" := "test title", "body" := "test body"];
    var r := index.AddDocument(doc, true);
    numDocs := index.NumDocs();
  }

  /** `docs[i]` is what the writer received for `records[i]`, for every `i`. */
  ghost predicate TranslatesAll(schema: Schema, records: seq<Record>, docs: seq<Doc>) {
    && |docs| == |records|
    && forall i :: 0 <= i < |docs| ==> IsTranslationOf(schema, records[i], docs[i])
  }

  /** A document translated from a record that carries the display field has that record's display value. */
  lemma TranslatedTitles(schema: Schema, nameField: string, fields: seq<string>,
                         records: seq<Record>, committed: seq<Doc>)
    requires BuiltFrom(schema, nameField, fields)
    requires TranslatesAll(schema, records, committed)
    requires forall j :: 0 <= j < |records| ==> nameField in records[j]
    ensures forall i :: 0 <= i < |committed| ==>
      FirstValue(committed[i], DisplayField) == Some(records[i][nameField])
  {
    forall i | 0 <= i < |committed|
      ensures FirstValue(committed[i], DisplayField) == Some(records[i][nameField])
    {
      TitleOfTranslation(schema, nameField, fields, records[i], committed[i]);
    }
  }

  /** Over such documents every hit of a ranking has a display value, as `search` needs. */
  lemma HitsHaveTitles(schema: Schema, nameField: string, fields: seq<string>,
                       records: seq<Record>, committed: seq<Doc>, hits: seq<nat>)
    requires BuiltFrom(schema, nameField, fields)
    requires TranslatesAll(schema, records, committed)
    requires forall j :: 0 <= j < |records| ==> nameField in records[j]
    requires IsRanking(hits, |committed|)
    ensures HitsHaveDisplayValue(committed, hits)
  {
    TranslatedTitles(schema, nameField, fields, records, committed);
  }

  /** The results a search reports over such documents are the records' display values, and nothing else. */
  lemma ResultsAreRecordTitles(schema: Schema, nameField: string, fields: seq<string>,
                               records: seq<Record>, committed: seq<Doc>, hits: seq<nat>, results: seq<string>)
    requires BuiltFrom(schema, nameField, fields)
    requires TranslatesAll(schema, records, committed)
    requires forall j :: 0 <= j < |records| ==> nameField in records[j]
    requires ReportsDisplayValues(results, committed, hits)
    ensures forall s :: s in results ==> exists j :: 0 <= j < |records| && s == records[j][nameField]
  {
    TranslatedTitles(schema, nameField, fields, records, committed);
    forall s | s in results
      ensures exists j :: 0 <= j < |records| && s == records[j][nameField]
    {
      var k :| 0 <= k < |results| && results[k] == s;
      assert hits[k] < |records|;
    }
  }

  /** Feed every record to the batch, in order, without committing. */
  method LoadBatch(batch: BatchIndexer, records: seq<Record>)
    requires batch.index.Valid() && batch.index.writerOpen && batch.index.pending == []
    modifies batch.index
    ensures batch.index.Valid() && batch.index.writerOpen
    ensures batch.index.committed == old(batch.index.committed)
    ensures TranslatesAll(batch.index.schema, records, batch.index.pending)
  {
    var j := 0;
    while j < |records|
      invariant 0 <= j <= |records|
      invariant batch.index.Valid() && batch.index.writerOpen
      invariant batch.index.committed == old(batch.index.committed)
      invariant TranslatesAll(batch.index.schema, records[..j], batch.index.pending)
    {
      var _ := batch.AddDocument(records[j]);
      j := j + 1;
      assert records[..j] == records[..j - 1] + [records[j - 1]];
    }
    assert records[..j] == records;
  }

  /**
   * Records added through a batch are not counted until the batch commits;
   * the commit counts every one of them.
   */
  method BatchCountScenario(records: seq<Record>) returns (countBefore: nat, countAfter: nat)
    ensures countBefore == 0 && countAfter == |records|
  {
    var index := new Index("title", ["body"]);
    var batch := new BatchIndexer(index);
    LoadBatch(batch, records);
    countBefore := index.NumDocs();
    var _ := batch.Commit(true);
    countAfter := index.NumDocs();
  }

  /**
   * Records added through a batch cannot be found until the batch commits;
   * after it, every search hit is the title of one of them.
   */
  method BatchSearchScenario<Q(!new)>(records: seq<Record>, query: string,
                                      parse: (seq<nat>, string) -> Option<Q>,
                                      rank: (Q, seq<Doc>) -> seq<nat>)
    returns (hitsBefore: Result<seq<string>>, hitsAfter: Result<seq<string>>)
    requires forall j :: 0 <= j < |records| ==> "title" in records[j]
    requires forall q: Q, docs: seq<Doc> :: IsRanking(rank(q, docs), |docs|)
    ensures parse([0, 1], query).None? ==>
      hitsBefore == Err(QueryParserError) && hitsAfter == Err(QueryParserError)
    ensures parse([0, 1], query).Some? ==> hitsBefore == Ok([]) && hitsAfter.Ok?
    ensures hitsAfter.Ok? ==>
      && |hitsAfter.value| <= TopK
      && forall s :: s in hitsAfter.value ==> exists j :: 0 <= j < |records| && s == records[j]["title"]
  {
    var index := new Index("title", ["body"]);
    assert AllFields(index.schema) == [0, 1];
    var parsed := parse([0, 1], query);
    var batch := new BatchIndexer(index);
    LoadBatch(batch, records);
    if parsed.Some? {
      var ranking := rank(parsed.value, index.committed);
      assert IsRanking(ranking, 0);
      // Instantiates IsRanking at the first hit: any hit would be a position
      // below 0, so the ranking over no documents is empty.
      assert |ranking| == 0 || ranking[0] < 0;
    }
    hitsBefore := index.Search(query, parse, rank);
    var _ := batch.Commit(true);
    ghost var hits: seq<nat> := [];
    if parsed.Some? {
      hits := TopDocs(rank(parsed.value, index.committed));
      TopDocsIsRanking(rank(parsed.value, index.committed), |index.committed|);
      HitsHaveTitles(index.schema, "title", ["body"], records, index.committed, hits);
    }
    hitsAfter := index.Search(query, parse, rank);
    if parsed.Some? {
      ResultsAreRecordTitles(index.schema, "title", ["body"], records, index.committed, hits, hitsAfter.value);
    }
  }
}
