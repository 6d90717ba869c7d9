/**
 `upload_to_bigquery`'s choice of load configuration, the ordered table
 dictionary the entry point assembles, and `get_last_record_date`'s
 watermark rule. Submitting the load job is not modelled.
 */
module Upload {
  import opened Wrappers
  import opened Values
  import opened Settings

  datatype WriteDisposition = WRITE_TRUNCATE | WRITE_APPEND

  /** One column of an explicit load schema. */
  datatype SchemaField = SchemaField(name: string, fieldType: ColumnType)

  /** The load-job options the sync sets; `None` is an option left at the warehouse's default. */
  datatype LoadJobConfig = LoadJobConfig(
    sourceFormat: string,
    writeDisposition: WriteDisposition,
    maxBadRecords: Option<int>,
    autodetect: Option<bool>,
    schema: Option<seq<SchemaField>>
  )

  const SOURCE_FORMAT: string := "NEWLINE_DELIMITED_JSON"

  /** The tables that are replaced wholesale on every run. */
  const REPLACED_TABLES: seq<string> := ["flows", "groups"]

  /** The loop that appends one schema column per field-map entry to `acc`. */
  function CollectSchema(acc: seq<SchemaField>, fields: FieldMap): (r: seq<SchemaField>)
    ensures |r| == |acc| + |fields|
    ensures r[..|acc|] == acc
    ensures forall i :: |acc| <= i < |r| ==>
              r[i] == SchemaField(fields[i - |acc|].0, fields[i - |acc|].1)
    decreases |fields|
  {
    if |fields| == 0 then acc
    else CollectSchema(acc + [SchemaField(fields[0].0, fields[0].1)], fields[1..])
  }

  /**
   The load configuration of a table: `flows` and `groups` are truncated and
   reloaded with no explicit schema and one bad record tolerated; every
   other table is appended to, with one schema column per field-map entry in
   field-map order.
   */
  function JobConfig(table: string, fields: FieldMap): (r: LoadJobConfig)
    ensures r.sourceFormat == "NEWLINE_DELIMITED_JSON"
    ensures r.writeDisposition == WRITE_TRUNCATE <==> table == "flows" || table == "groups"
    ensures r.writeDisposition == WRITE_TRUNCATE ==>
              r.schema.None? && r.maxBadRecords == Some(1) && r.autodetect == Some(false)
    ensures r.writeDisposition == WRITE_APPEND ==>
              && r.maxBadRecords.None? && r.autodetect.None? && r.schema.Some?
              && |r.schema.value| == |fields|
              && forall i :: 0 <= i < |fields| ==> r.schema.value[i] == SchemaField(fields[i].0, fields[i].1)
  {
    if table in REPLACED_TABLES then
      LoadJobConfig(SOURCE_FORMAT, WRITE_TRUNCATE, Some(1), Some(false), None)
    else
      LoadJobConfig(SOURCE_FORMAT, WRITE_APPEND, None, None, Some(CollectSchema([], fields)))
  }

  /** The field map passed for `flows` or `groups` has no effect on its load. */
  lemma ReplacedTablesIgnoreFields(table: string, f: FieldMap, g: FieldMap)
    requires table == "flows" || table == "groups"
    ensures JobConfig(table, f) == JobConfig(table, g)
  {
  }

  /** An appended table's schema names exactly the columns of its field map. */
  lemma AppendSchemaNames(table: string, fields: FieldMap)
    requires table != "flows" && table != "groups"
    ensures JobConfig(table, fields).schema.Some?
    ensures (set f | f in JobConfig(table, fields).schema.value :: f.name) == Names(fields)
  {
    var s := JobConfig(table, fields).schema.value;
    forall n | n in Names(fields)
      ensures n in (set f | f in s :: f.name)
    {
      var i :| 0 <= i < |fields| && fields[i].0 == n;
      assert s[i].name == n;
    }
  }

  /** An appended table's schema lists each column once, because a field map names each column once. */
  lemma AppendSchemaDistinct(table: string, fields: FieldMap)
    requires table != "flows" && table != "groups"
    ensures JobConfig(table, fields).schema.Some?
    ensures var s := JobConfig(table, fields).schema.value;
            forall i, j :: 0 <= i < j < |s| ==> s[i].name != s[j].name
  {
  }

  // ---------------------------------------------------------------------------
  // The table dictionary
  // ---------------------------------------------------------------------------

  /** A table's rows and the field map it is loaded with. */
  datatype TableEntry = TableEntry(rows: seq<Row>, fields: FieldMap)

  /** A Python dict from table name to entry, in insertion order. */
  type Tables = seq<(string, TableEntry)>

  function TableNames(d: Tables): (names: seq<string>)
    ensures |names| == |d|
    ensures forall i :: 0 <= i < |d| ==> names[i] == d[i].0
  {
    seq(|d|, i requires 0 <= i < |d| => d[i].0)
  }

  /**
   `d[key] = entry`: a key already present keeps its place and takes the new
   entry; a new key goes last.
   */
  function DictSet(d: Tables, key: string, entry: TableEntry): Tables
    decreases |d|
  {
    if |d| == 0 then [(key, entry)]
    else if d[0].0 == key then [(key, entry)] + d[1..]
    else [d[0]] + DictSet(d[1..], key, entry)
  }

  /** Setting a key the dictionary does not hold appends it. */
  lemma {:induction false} DictSetFresh(d: Tables, key: string, entry: TableEntry)
    requires key !in TableNames(d)
    ensures DictSet(d, key, entry) == d + [(key, entry)]
    decreases |d|
  {
    if |d| > 0 {
      assert TableNames(d)[1..] == TableNames(d[1..]);
      DictSetFresh(d[1..], key, entry);
      assert d == [d[0]] + d[1..];
    }
  }

  /** Setting a key the dictionary holds replaces its first entry in place. */
  lemma {:induction false} DictSetExisting(d: Tables, key: string, entry: TableEntry, i: nat)
    requires i < |d| && d[i].0 == key && key !in TableNames(d[..i])
    ensures DictSet(d, key, entry) == d[i := (key, entry)]
    decreases i
  {
    if i > 0 {
      assert d[0].0 == TableNames(d[..i])[0];
      assert TableNames(d[1..][..i - 1]) == TableNames(d[..i])[1..];
      DictSetExisting(d[1..], key, entry, i - 1);
    }
  }

  /** Setting a key keeps the key order, adding the key at the end when it is new. */
  lemma {:induction false} DictSetNames(d: Tables, key: string, entry: TableEntry)
    ensures TableNames(DictSet(d, key, entry)) ==
            if key in TableNames(d) then TableNames(d) else TableNames(d) + [key]
    decreases |d|
  {
    if |d| > 0 {
      assert TableNames(d) == [d[0].0] + TableNames(d[1..]);
      if d[0].0 != key {
        DictSetNames(d[1..], key, entry);
        assert TableNames(DictSet(d, key, entry)) == [d[0].0] + TableNames(DictSet(d[1..], key, entry));
      } else {
        assert TableNames(DictSet(d, key, entry)) == [key] + TableNames(d[1..]);
      }
    }
  }

  /** `d.update(u)`: the entries of `u` set one after the other, in `u`'s order. */
  function DictUpdate(d: Tables, u: Tables): Tables
    decreases |u|
  {
    if |u| == 0 then d else DictUpdate(DictSet(d, u[0].0, u[0].1), u[1..])
  }

  /** Keys named once each. */
  predicate DistinctKeys(names: seq<string>) {
    forall i, j :: 0 <= i < j < |names| ==> names[i] != names[j]
  }

  /** Updating with entries whose keys are new and distinct appends them, in order. */
  lemma {:induction false} DictUpdateFresh(d: Tables, u: Tables)
    requires DistinctKeys(TableNames(u))
    requires forall i :: 0 <= i < |u| ==> u[i].0 !in TableNames(d)
    ensures DictUpdate(d, u) == d + u
    decreases |u|
  {
    if |u| > 0 {
      var d' := DictSet(d, u[0].0, u[0].1);
      DictSetFresh(d, u[0].0, u[0].1);
      assert d' == d + [u[0]];
      forall i | 0 <= i < |u[1..]|
        ensures u[1..][i].0 !in TableNames(d')
      {
        assert TableNames(d') == TableNames(d) + [u[0].0];
        assert u[1..][i].0 == TableNames(u)[i + 1] != TableNames(u)[0];
      }
      assert DistinctKeys(TableNames(u[1..])) by {
        forall i, j | 0 <= i < j < |u[1..]|
          ensures TableNames(u[1..])[i] != TableNames(u[1..])[j]
        {
          assert TableNames(u)[i + 1] != TableNames(u)[j + 1];
        }
      }
      DictUpdateFresh(d', u[1..]);
      assert d + u == d' + u[1..];
    }
  }

  // ---------------------------------------------------------------------------
  // The watermark
  // ---------------------------------------------------------------------------

  /**
   `get_last_record_date` over the first column of the query result: the
   rendering of the first row holding a datetime, or None when no row does
   (the table is empty, or the query found no maximum).
   */
  function LastRecordDate<T>(column: seq<Option<T>>, render: T -> string): (r: Option<string>)
    ensures r.None? <==> forall i :: 0 <= i < |column| ==> column[i].None?
    ensures r.Some? ==> exists i :: 0 <= i < |column| && column[i].Some? &&
                                    (forall j :: 0 <= j < i ==> column[j].None?) &&
                                    r.value == render(column[i].value)
    decreases |column|
  {
    if |column| == 0 then None
    else if column[0].Some? then Some(render(column[0].value))
    else
      var r := LastRecordDate(column[1..], render);
      assert r.Some? ==> exists i :: 0 <= i < |column| - 1 && column[1..][i].Some? &&
                                     (forall j :: 0 <= j < i ==> column[1..][j].None?) &&
                                     r.value == render(column[1..][i].value);
      r
  }
}
