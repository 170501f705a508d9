/**
 * The schema of a wrapped index: an ordered list of text fields. Every field
 * is tokenised and indexed (tantivy's TEXT); only the display field is also
 * stored (STORED), so that its raw text can be returned by a search.
 */
module Schemas {
  import opened Results

  /** One text field; `stored` says whether its raw text is kept in the doc store. */
  datatype FieldEntry = FieldEntry(name: string, stored: bool)

  /** A field's identity is its position in the schema (tantivy's `Field(u32)`). */
  type Schema = seq<FieldEntry>

  /** The builder adds the display ("name") field first, so it is always field 0. */
  const DisplayField: nat := 0

  predicate Distinct(names: seq<string>) {
    forall i, j :: 0 <= i < j < |names| ==> names[i] != names[j]
  }

  /** The names of the schema's fields, in schema order. */
  function Names(schema: Schema): (names: seq<string>)
    ensures |names| == |schema|
    ensures forall i :: 0 <= i < |schema| ==> names[i] == schema[i].name
  {
    if schema == [] then [] else [schema[0].name] + Names(schema[1..])
  }

  predicate DistinctNames(schema: Schema) {
    Distinct(Names(schema))
  }

  /** Look a field up by name (tantivy's `Schema::get_field`). */
  function FieldIndex(schema: Schema, name: string): (r: Option<nat>)
    ensures r.Some? ==> r.value < |schema| && schema[r.value].name == name
    ensures r.Some? ==> forall j :: 0 <= j < r.value ==> schema[j].name != name
    ensures r.None? <==> name !in Names(schema)
  {
    if schema == [] then None
    else if schema[0].name == name then Some(0)
    else match FieldIndex(schema[1..], name)
      case None => None
      case Some(i) => Some(i + 1)
  }

  /** The shape `TantivyIndexWrapper::new` gives a schema built from `nameField` and `fields`. */
  ghost predicate BuiltFrom(schema: Schema, nameField: string, fields: seq<string>) {
    && |schema| == 1 + |fields|
    && schema[0] == FieldEntry(nameField, true)
    && forall i :: 0 <= i < |fields| ==> schema[i + 1] == FieldEntry(fields[i], false)
  }

  lemma {:induction false} DistinctCons(name: string, fields: seq<string>)
    ensures Distinct([name] + fields) <==> name !in fields && Distinct(fields)
  {
    var all := [name] + fields;
    if Distinct(all) {
      forall i, j | 0 <= i < j < |fields| ensures fields[i] != fields[j] {
        assert all[i + 1] == fields[i] && all[j + 1] == fields[j];
      }
      forall k | 0 <= k < |fields| ensures fields[k] != name {
        assert all[0] == name && all[k + 1] == fields[k];
        assert all[0] != all[k + 1];
      }
    }
    if name !in fields && Distinct(fields) {
      forall i, j | 0 <= i < j < |all| ensures all[i] != all[j] {
        if i == 0 {
          assert all[j] == fields[j - 1];
        } else {
          assert all[i] == fields[i - 1] && all[j] == fields[j - 1];
        }
      }
    }
  }

  lemma {:induction false} BuiltNames(schema: Schema, nameField: string, fields: seq<string>)
    requires BuiltFrom(schema, nameField, fields)
    ensures Names(schema) == [nameField] + fields
    ensures DistinctNames(schema) <==> nameField !in fields && Distinct(fields)
    ensures FieldIndex(schema, nameField) == Some(DisplayField)
  {
    var names := Names(schema);
    forall i | 0 <= i < |names| ensures names[i] == ([nameField] + fields)[i] {
      if i > 0 {
        assert schema[(i - 1) + 1] == FieldEntry(fields[i - 1], false);
      }
    }
    assert names == [nameField] + fields;
    DistinctCons(nameField, fields);
  }

  /**
   * `TantivyIndexWrapper::new`: the display field first, marked TEXT | STORED,
   * then every other field in the given order, marked TEXT only.
   */
  method BuildSchema(nameField: string, fields: seq<string>) returns (schema: Schema)
    ensures BuiltFrom(schema, nameField, fields)
    ensures Names(schema) == [nameField] + fields
    ensures DistinctNames(schema) <==> nameField !in fields && Distinct(fields)
  {
    schema := [FieldEntry(nameField, true)];
    var i := 0;
    while i < |fields|
      invariant 0 <= i <= |fields|
      invariant |schema| == 1 + i
      invariant schema[0] == FieldEntry(nameField, true)
      invariant forall k :: 0 <= k < i ==> schema[k + 1] == FieldEntry(fields[k], false)
    {
      schema := schema + [FieldEntry(fields[i], false)];
      i := i + 1;
    }
    BuiltNames(schema, nameField, fields);
  }
}
