# A verified model of the pytantivy index wrapper

This project models `TantivyIndexWrapper` and `BatchIndexer` from
`brt/pytantivy/src/wrappers.rs`. It is a thin layer over the tantivy search
library. It builds a schema from a display ("name") field and other text
fields, translates records (field name to text maps) into documents, and adds
them through tantivy's single index writer. Documents are added either one at a
time, each with its own writer and commit, or in a batch that keeps one writer
and commits when asked. A search reports the display-field text of the top 10
hits.

Tantivy is replaced by explicit state in the class `Indexing.Index`:

- `committed`: the documents of the last committed generation, which is all a searcher sees;
- `pending`: the documents queued in the open writer;
- `writerOpen`: the writer lock.

The invariant `Valid()` says four things:

- the schema is the one the builder made;
- field names are distinct;
- every document is well formed;
- when no writer is open, nothing is pending (dropping a writer discards what it did not commit).

Tantivy's own decisions are parameters:

- query parsing is `parse: (defaultFields, text) -> Option<Q>`;
- relevance ranking is `rank: (Q, committed) -> seq<nat>`, an ordering of committed documents, of which the top-10 collector keeps a prefix;
- whether the storage accepts a commit is the flag `storageOk`.

HashMap iteration order is unspecified. `Documents.Translate` therefore picks
keys with `:|`, and its result is specified up to order (`IsTranslationOf`,
`TranslationsArePermutations`).

Modules, one per component:

- `Results` (results.dfy): `Option`, `Result`, and the tantivy errors the wrapper propagates;
- `Schemas` (schema.dfy): schema building and field lookup;
- `Documents` (documents.dfy): record translation, the stored part of a document, and first values;
- `Indexing` (index.dfy): the index state machine, the batch indexer, and search;
- `Scenarios` (scenarios.dfy): the unit tests of wrappers.rs and the batch-then-commit usage, written as client code proved from the contracts alone.

`Indexing.Index.NumDocs` (wrappers.rs:37-40) counts the committed documents only.

## Model

| member | source | states |
|---|---|---|
| `Schemas.BuildSchema` | brt/pytantivy/src/wrappers.rs:14-20 | the schema has 1 + \|fields\| entries; the display field comes first and is stored, then each other field in order, indexed only; its names are `[name] + fields`; its names are distinct exactly when `name` is not in `fields` and `fields` has no repeats |
| `Schemas.BuiltNames` | brt/pytantivy/src/wrappers.rs:14-20 | any schema of the built shape has names `[name] + fields`, distinctness in both directions, and `get_field(name)` gives field 0 |
| `Schemas.Names` | brt/pytantivy/src/wrappers.rs:32-34 | one name per field, position by position, in schema order |
| `Schemas.FieldIndex` | brt/pytantivy/src/wrappers.rs:88 | a lookup by name returns the first field with that name, and fails exactly when no field has that name |
| `Indexing.Index.constructor` | brt/pytantivy/src/wrappers.rs:14-27 | a fresh in-RAM index: the built schema, nothing committed or pending, no writer open; requires distinct field names |
| `Indexing.Index.FieldNames` | brt/pytantivy/src/wrappers.rs:29-35 | the field names are `[name_field] + fields`, in order; as a function it changes nothing |
| `Documents.Translate` | brt/pytantivy/src/wrappers.rs:85-97 | never fails; the result is a translation of the record (see `IsTranslationOf`) and has no more entries than the record |
| `Documents.TranslationMembership` | brt/pytantivy/src/wrappers.rs:87-94 | a value is in a translation exactly when it is the record's entry for a schema field |
| `Documents.TranslationBound` | brt/pytantivy/src/wrappers.rs:87-94 | every translation is well formed, and dropping unknown keys never makes it longer than the record |
| `Documents.TranslationsArePermutations` | brt/pytantivy/src/wrappers.rs:87 | two translations of one record, in any two iteration orders, are equal as multisets |
| `Documents.KeyAppearsOnce` | brt/pytantivy/src/wrappers.rs:88-92 | a record key that is a schema field appears in the translation exactly once, with the record's value |
| `Documents.StoredPart` | brt/pytantivy/src/wrappers.rs:74 | the document's values of STORED fields, in order |
| `Documents.FirstValue` | brt/pytantivy/src/wrappers.rs:75-76 | the first value of the field, or nothing |
| `Documents.StoredPartMeaning` | brt/pytantivy/src/wrappers.rs:74 | a fetched document holds exactly the values of stored fields |
| `Documents.FirstValueMeaning` | brt/pytantivy/src/wrappers.rs:75-77 | `get_first` returns nothing exactly when the field does not occur; otherwise it returns one of that field's values |
| `Documents.StoredKeepsFirst` | brt/pytantivy/src/wrappers.rs:74-76 | for a stored field, the first value in the fetched document equals the first value in the added document |
| `Documents.TitleOfTranslation` | brt/pytantivy/src/wrappers.rs:55 | the display value of a document translated from a record is that record's display-field value, or absent when the record lacks the key |
| `Indexing.AllFields` | brt/pytantivy/src/wrappers.rs:64-68 | every schema field, in order, is a default field of the parser |
| `Indexing.TopDocs` | brt/pytantivy/src/wrappers.rs:71 | the collector keeps the longest prefix of the ranking that has at most 10 hits |
| `Indexing.TopDocsIsRanking` | brt/pytantivy/src/wrappers.rs:71 | a prefix of a ranking still lists distinct committed documents |
| `Indexing.Materialise` | brt/pytantivy/src/wrappers.rs:72-81 | one result per hit, in hit order, each the hit document's first display-field value |
| `Indexing.Index.Search` | brt/pytantivy/src/wrappers.rs:60-83 | a query that does not parse gives `QueryParserError`; otherwise at most 10 results, each the display value of a distinct committed document, in ranking order; pending documents are never consulted |
| `Indexing.Index.NumDocs` | brt/pytantivy/src/wrappers.rs:37-40 | the count of the committed snapshot; pending documents are not counted |
| `Indexing.Index.OpenWriter` | brt/pytantivy/src/wrappers.rs:44 | a writer opens exactly when none is open, and nothing else changes |
| `Indexing.Index.ReleaseWriter` | brt/pytantivy/src/wrappers.rs:47-48 | the writer dropped as `add_document` returns frees the lock; the committed documents are unchanged, and (by the model's choice, see below) nothing stays pending |
| `Indexing.Index.AddDocumentNoCommit` | brt/pytantivy/src/wrappers.rs:50-58 | always Ok; appends one translation of the record to the pending documents and leaves the committed documents (and so the count) unchanged |
| `Indexing.Index.CommitWriter` | pandasearch/pytantivy/src/main.rs:139-141 | a successful commit appends all pending documents, in order, to the committed ones, leaves nothing pending and keeps the writer open; the failure branch is the model's choice for `storageOk` (see below) |
| `Indexing.Index.AddDocument` | brt/pytantivy/src/wrappers.rs:43-48 | with a writer already open: `LockFailure` and no change; otherwise the writer is released afterwards, nothing is pending, and on success exactly one document (the record's translation) is added to the committed ones |
| `Indexing.BatchIndexer.constructor` | brt/pytantivy/src/wrappers.rs:106-112 | takes the writer lock, which must be free because the code unwraps; the documents are unchanged |
| `Indexing.BatchIndexer.AddDocument` | brt/pytantivy/src/wrappers.rs:114-118 | always Ok; queues one translation of the record; the committed count is unchanged |
| `Indexing.BatchIndexer.Commit` | brt/pytantivy/src/wrappers.rs:120-123 | publishes everything added since the previous commit, in order; the writer is kept, so commits can be repeated |
| `Indexing.BatchIndexer.Drop` | brt/pytantivy/src/wrappers.rs:100-103 | dropping the batch drops its writer and frees the lock; that uncommitted additions are lost is the model's choice, as for `ReleaseWriter` |
| `Scenarios.InitIndexScenario` | brt/pytantivy/src/wrappers.rs:129-137 | a title field plus a body field gives a schema of 2 fields, named `["title", "body"]` |
| `Scenarios.IndexingScenario` | brt/pytantivy/src/wrappers.rs:140-157 | one `add_document` on a fresh index gives `num_docs == 1` |
| `Scenarios.LoadBatch` | brt/pytantivy/src/wrappers.rs:114-118 | a run of batch adds queues one translation per record, in order, and commits nothing |
| `Scenarios.BatchCountScenario` | pandasearch/pytantivy/src/main.rs:128-141 | N batch adds count 0 before `commit` and N after it |
| `Scenarios.TranslatedTitles` | brt/pytantivy/src/wrappers.rs:55 | each document translated from a record that carries the display field has that record's display value |
| `Scenarios.HitsHaveTitles` | brt/pytantivy/src/wrappers.rs:75-79 | over such documents every hit of a ranking has a display value, so the unwrap in `search` cannot panic |
| `Scenarios.ResultsAreRecordTitles` | brt/pytantivy/src/wrappers.rs:72-81 | every result reported over such documents is some record's display value |
| `Scenarios.BatchSearchScenario` | pandasearch/pytantivy/src/main.rs:128-134 | before the batch commits, a search finds nothing; after it, at most 10 results, each the title of an added record; a query that does not parse fails both times |

## Left out

- Tokenisation, postings, segment merging, TF-IDF/BM25 scoring and the query syntax (`field:term^boost`) are inside tantivy, whose code is not shown. Parsing and ranking are parameters. The model promises nothing about which documents match a query, so the boosting and "sea" examples cannot be stated.
- Indexing.Index.Search: a failure to open the reader (wrappers.rs:61), a failure of the collector's search (wrappers.rs:71) and a failure to fetch a stored document (wrappers.rs:74) are not modelled. All three are tantivy's and cannot be seen for an in-RAM index, so `Search` has only the parse error path.
- Indexing.Index.NumDocs: a failure to open the reader (wrappers.rs:38) is not modelled, and the count is an unbounded `nat` rather than a `u64`.
- Indexing.Index.Search: a hit without a display value is a precondition, because the code unwraps it (wrappers.rs:77) and would panic.
- Indexing.Index.constructor: distinct field names are a precondition. What tantivy does with a repeated name is not defined.
- Indexing.Index.CommitWriter: commit failures of the storage layer are a parameter (`storageOk`), not derived from anything. The source documents only a commit that returns correctly. What a commit that returns `Err` does is the model's own choice: the last generation stays and the writer's pending documents are dropped, so a later commit of the same writer does not publish them.
- Indexing.Index.ReleaseWriter: the source never says what dropping a writer does to documents it did not commit. That they are discarded, so the index stays at its last commit, is the model's own choice. It matches the rollback tantivy documents after a crash.
- The memory budgets (50 000 000 at wrappers.rs:44, 2 000 000 000 at wrappers.rs:107) have no visible behaviour, and the model leaves them out. The same goes for the unused `index_name` parameter.
- The writer's worker threads and the reader's reload policy are concurrency. Each call is atomic in the model.
- Indexing.Index.AddDocumentNoCommit, Indexing.BatchIndexer.AddDocument: the code discards the writer's own result of `add_document` (wrappers.rs:56) and returns `Ok(())` regardless. The model assumes the writer accepts every document, so a refused document, which would give `Ok` with nothing queued, is not modelled.
- Indexing.BatchIndexer.AddDocument, Indexing.BatchIndexer.Commit, Indexing.BatchIndexer.Drop: the model checks only that a writer is open, not that it is this batch's writer, so a batch that was already dropped could still commit or release a writer that another batch holds. In Rust, ownership guarantees that.
- pandasearch/pytantivy/src/main.rs is not part of this model: its tutorial driver, CSV reading, argument parsing, printing and error-string conversions are I/O and plumbing. Its comments are the source for the commit semantics. The `polars_documents` module is not part of this model either.
- Three behaviours follow the code where a looser reading of the wrapper is possible:
  - field names come back in schema order, not as an unordered set;
  - a hit without a display value panics; it is not skipped;
  - a batch may commit more than once.
