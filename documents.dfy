/**
 * Documents: the translation of an external record (a HashMap from field
 * name to text) into the list of field values handed to the index writer,
 * and the two read-side views of a document that a search uses: its stored
 * part and the first value of a field.
 */
module Documents {
  import opened Results
  import opened Schemas

  /** A text value of one schema field (tantivy's `FieldValue` holding a `Value::Str`). */
  datatype FieldValue = FieldValue(field: nat, text: string)

  type Doc = seq<FieldValue>

  /** An external record: field name to a single text value. */
  type Record = map<string, string>

  /** `v` is the record's entry for a schema field, under the identity `get_field` gives it. */
  predicate Translates(schema: Schema, record: Record, v: FieldValue) {
    && v.field < |schema|
    && schema[v.field].name in record
    && FieldIndex(schema, schema[v.field].name) == Some(v.field)
    && v.text == record[schema[v.field].name]
  }

  predicate DistinctFields(doc: Doc) {
    forall i, j :: 0 <= i < j < |doc| ==> doc[i].field != doc[j].field
  }

  /** Every value names a field of the schema, and no field occurs twice. */
  predicate WellFormed(schema: Schema, doc: Doc) {
    && (forall i :: 0 <= i < |doc| ==> doc[i].field < |schema|)
    && DistinctFields(doc)
  }

  /**
   * `doc` is what `field_vec_from_hashmap` may return for `record`, in some
   * iteration order of the map: each value is a record entry for a schema
   * field, no field twice, and every record key that names a schema field is
   * there. Keys that are not schema fields are dropped.
   */
  ghost predicate IsTranslationOf(schema: Schema, record: Record, doc: Doc) {
    && (forall i :: 0 <= i < |doc| ==> Translates(schema, record, doc[i]))
    && DistinctFields(doc)
    && (forall k :: k in record && FieldIndex(schema, k).Some? ==>
          FieldValue(FieldIndex(schema, k).value, record[k]) in doc)
  }

  /** A translation holds exactly the record's entries for schema fields. */
  lemma TranslationMembership(schema: Schema, record: Record, doc: Doc, v: FieldValue)
    requires IsTranslationOf(schema, record, doc)
    ensures v in doc <==> Translates(schema, record, v)
  {
    if Translates(schema, record, v) {
      var k := schema[v.field].name;
      assert v == FieldValue(FieldIndex(schema, k).value, record[k]);
    }
  }

  /** Dropping unknown keys never lengthens the document: at most one value per record entry. */
  lemma {:induction false} TranslationBound(schema: Schema, record: Record, doc: Doc)
    requires IsTranslationOf(schema, record, doc)
    ensures WellFormed(schema, doc)
    ensures |doc| <= |record|
    decreases |doc|
  {
    if doc != [] {
      var n := |doc| - 1;
      var last := doc[n];
      var key := schema[last.field].name;
      var rest := doc[..n];
      var smaller := record - {key};
      forall i | 0 <= i < |rest| ensures Translates(schema, smaller, rest[i]) {
        assert rest[i] == doc[i] && Translates(schema, record, doc[i]);
        assert doc[i].field != last.field;
      }
      forall k | k in smaller && FieldIndex(schema, k).Some?
        ensures FieldValue(FieldIndex(schema, k).value, smaller[k]) in rest
      {
        var v := FieldValue(FieldIndex(schema, k).value, record[k]);
        assert v in doc;
        assert v.field != last.field;
        var a :| 0 <= a < |doc| && doc[a] == v;
        assert a != n;
        assert rest[a] == v;
      }
      assert DistinctFields(rest) by {
        forall i, j | 0 <= i < j < |rest| ensures rest[i].field != rest[j].field {
          assert rest[i] == doc[i] && rest[j] == doc[j];
        }
      }
      TranslationBound(schema, smaller, rest);
      assert |smaller| == |record| - 1;
    }
  }

  lemma {:induction false} DistinctMultiplicity(doc: Doc, v: FieldValue)
    requires DistinctFields(doc)
    ensures multiset(doc)[v] == if v in doc then 1 else 0
    decreases |doc|
  {
    if doc != [] {
      assert doc == [doc[0]] + doc[1..];
      assert DistinctFields(doc[1..]) by {
        forall i, j | 0 <= i < j < |doc[1..]| ensures doc[1..][i].field != doc[1..][j].field {
          assert doc[1..][i] == doc[i + 1] && doc[1..][j] == doc[j + 1];
        }
      }
      DistinctMultiplicity(doc[1..], v);
      if v == doc[0] {
        forall i | 0 <= i < |doc[1..]| ensures doc[1..][i] != v {
          assert doc[1..][i] == doc[i + 1];
        }
      }
    }
  }

  /**
   * HashMap iteration order is unspecified, so translations of one record may
   * differ in order; they never differ in anything else.
   */
  lemma TranslationsArePermutations(schema: Schema, record: Record, d1: Doc, d2: Doc)
    requires IsTranslationOf(schema, record, d1)
    requires IsTranslationOf(schema, record, d2)
    ensures multiset(d1) == multiset(d2)
  {
    forall v ensures multiset(d1)[v] == multiset(d2)[v] {
      TranslationMembership(schema, record, d1, v);
      TranslationMembership(schema, record, d2, v);
      DistinctMultiplicity(d1, v);
      DistinctMultiplicity(d2, v);
    }
  }

  /** A record key that is a schema field appears in the translation exactly once. */
  lemma KeyAppearsOnce(schema: Schema, record: Record, doc: Doc, key: string) returns (i: nat)
    requires IsTranslationOf(schema, record, doc)
    requires key in record && key in Names(schema)
    ensures i < |doc| && doc[i] == FieldValue(FieldIndex(schema, key).value, record[key])
    ensures forall j :: 0 <= j < |doc| && schema[doc[j].field].name == key ==> j == i
  {
    var v := FieldValue(FieldIndex(schema, key).value, record[key]);
    assert v in doc;
    i :| 0 <= i < |doc| && doc[i] == v;
    forall j | 0 <= j < |doc| && schema[doc[j].field].name == key ensures j == i {
      assert Translates(schema, record, doc[j]);
      assert doc[j].field == doc[i].field;
    }
  }

  /**
   * `field_vec_from_hashmap`: walk the record's entries in an unspecified
   * order, keep those whose key is a schema field, silently drop the rest.
   * It never fails.
   */
  method Translate(schema: Schema, record: Record) returns (doc: Doc)
    ensures IsTranslationOf(schema, record, doc)
    ensures |doc| <= |record|
  {
    doc := [];
    var remaining := record.Keys;
    while remaining != {}
      invariant remaining <= record.Keys
      invariant forall i :: 0 <= i < |doc| ==>
        Translates(schema, record, doc[i]) && schema[doc[i].field].name !in remaining
      invariant DistinctFields(doc)
      invariant forall k :: k in record && k !in remaining && FieldIndex(schema, k).Some? ==>
        FieldValue(FieldIndex(schema, k).value, record[k]) in doc
      decreases remaining
    {
      var key :| key in remaining;
      var field := FieldIndex(schema, key);
      match field {
        case Some(f) =>
          doc := doc + [FieldValue(f, record[key])];
        case None =>
      }
      remaining := remaining - {key};
    }
    TranslationBound(schema, record, doc);
  }

  /** The first value of `field` in `doc` (tantivy's `Document::get_first`). */
  function FirstValue(doc: Doc, field: nat): Option<string> {
    if doc == [] then None
    else if doc[0].field == field then Some(doc[0].text)
    else FirstValue(doc[1..], field)
  }

  /** There is a first value exactly when the field occurs, and it is one of the field's values. */
  lemma {:induction false} FirstValueMeaning(doc: Doc, field: nat)
    ensures FirstValue(doc, field).None? <==> forall i :: 0 <= i < |doc| ==> doc[i].field != field
    ensures FirstValue(doc, field).Some? ==> FieldValue(field, FirstValue(doc, field).value) in doc
    decreases |doc|
  {
    if doc != [] && doc[0].field != field {
      FirstValueMeaning(doc[1..], field);
      assert forall i :: 0 < i < |doc| ==> doc[i] == doc[1..][i - 1];
    }
  }

  predicate IsStored(schema: Schema, field: nat) {
    field < |schema| && schema[field].stored
  }

  /** What the doc store keeps of a document: the values of STORED fields, in order. */
  function StoredPart(schema: Schema, doc: Doc): Doc {
    if doc == [] then []
    else (if IsStored(schema, doc[0].field) then [doc[0]] else []) + StoredPart(schema, doc[1..])
  }

  /** The stored part holds exactly the document's values of stored fields. */
  lemma {:induction false} StoredPartMeaning(schema: Schema, doc: Doc, v: FieldValue)
    ensures v in StoredPart(schema, doc) <==> v in doc && IsStored(schema, v.field)
    decreases |doc|
  {
    if doc != [] {
      StoredPartMeaning(schema, doc[1..], v);
      assert doc == [doc[0]] + doc[1..];
    }
  }

  /** Fetching a document from the store loses nothing of a stored field. */
  lemma {:induction false} StoredKeepsFirst(schema: Schema, doc: Doc, field: nat)
    requires IsStored(schema, field)
    ensures FirstValue(StoredPart(schema, doc), field) == FirstValue(doc, field)
    decreases |doc|
  {
    if doc != [] {
      StoredKeepsFirst(schema, doc[1..], field);
      if IsStored(schema, doc[0].field) {
        assert StoredPart(schema, doc) == [doc[0]] + StoredPart(schema, doc[1..]);
      } else {
        assert StoredPart(schema, doc) == StoredPart(schema, doc[1..]);
      }
    }
  }

  /**
   * The display value a search reports for a translated record is the
   * record's own value for the display field, and a record without that key
   * gives a document without a display value.
   */
  lemma TitleOfTranslation(schema: Schema, nameField: string, fields: seq<string>, record: Record, doc: Doc)
    requires BuiltFrom(schema, nameField, fields)
    requires IsTranslationOf(schema, record, doc)
    ensures FirstValue(doc, DisplayField) == if nameField in record then Some(record[nameField]) else None
  {
    BuiltNames(schema, nameField, fields);
    FirstValueMeaning(doc, DisplayField);
    if nameField in record {
      var v := FieldValue(DisplayField, record[nameField]);
      assert v in doc;
      var first := FirstValue(doc, DisplayField);
      assert first.Some?;
      var a :| 0 <= a < |doc| && doc[a] == FieldValue(DisplayField, first.value);
      var b :| 0 <= b < |doc| && doc[b] == v;
      assert a == b;
    } else {
      forall i | 0 <= i < |doc| ensures doc[i].field != DisplayField {
        assert Translates(schema, record, doc[i]);
      }
    }
  }
}
