/**
 The static configuration of the sync (settings.py): the warehouse column
 types, the field map of every target table, and the flow-data switch.
 A field map is a Python dict literal, kept here as its ordered list of
 (column name, column type) pairs so that insertion order is preserved.
 */
module Settings {
  import opened Wrappers
  import opened Values

  /** The warehouse column types the field maps use, named as the warehouse names them. */
  datatype ColumnType = STRING | TIMESTAMP | BOOLEAN | INTEGER

  /**
   A field map: a dict from column name to column type, so each name occurs
   once. Its entries are kept in insertion order.
   */
  type FieldMap = m: seq<(string, ColumnType)> | DistinctNames(m) witness []

  /** The keys of a field map. */
  function Names(m: FieldMap): set<string> {
    set p | p in m :: p.0
  }

  predicate DistinctNames(m: seq<(string, ColumnType)>) {
    forall i, j :: 0 <= i < j < |m| ==> m[i].0 != m[j].0
  }

  /** `m[name]` when `name in m`: the type of the entry with that name. */
  function Lookup(m: FieldMap, name: string): (r: Option<ColumnType>)
    ensures r.Some? <==> name in Names(m)
    ensures r.Some? ==> exists i :: 0 <= i < |m| && m[i] == (name, r.value) &&
                                    forall j :: i < j < |m| ==> m[j].0 != name
    decreases |m|
  {
    if |m| == 0 then None
    else if m[|m| - 1].0 == name then Some(m[|m| - 1].1)
    else
      assert forall p :: p in m ==> p in m[..|m| - 1] || p == m[|m| - 1];
      Lookup(m[..|m| - 1], name)
  }

  /** The lookup of the i-th name returns the i-th type. */
  lemma LookupDistinct(m: FieldMap, i: nat)
    requires i < |m|
    ensures Lookup(m, m[i].0) == Some(m[i].1)
  {
  }

  /** Whether a JSON value has the kind a column of type `t` holds; `Null` fits every column. */
  predicate Fits(v: Value, t: ColumnType) {
    match v
    case Null => true
    case Bool(_) => t == BOOLEAN
    case Int(_) => t == INTEGER
    case Str(_) => t == STRING || t == TIMESTAMP
    case List(_) => false
  }

  /** A row agrees with a field map: every key is a column of the map and its value fits that column. */
  predicate FitsSchema(row: Row, m: FieldMap) {
    forall k :: k in row ==> Lookup(m, k).Some? && Fits(row[k], Lookup(m, k).value)
  }

  /** A row whose columns all belong to the map fits it when each column it holds fits that column's type. */
  lemma FitsSchemaByColumn(row: Row, m: FieldMap)
    requires row.Keys <= Names(m)
    requires forall i :: 0 <= i < |m| && m[i].0 in row ==> Fits(row[m[i].0], m[i].1)
    ensures FitsSchema(row, m)
  {
    forall k | k in row
      ensures Lookup(m, k).Some? && Fits(row[k], Lookup(m, k).value)
    {
      var i :| 0 <= i < |m| && m[i].0 == k;
      LookupDistinct(m, i);
    }
  }

  const IMPORT_FLOW_DATA: bool := true

  const CONTACT_FIELDS: FieldMap :=
    [("uuid", STRING), ("modified_on", TIMESTAMP), ("urn", STRING)]

  const GROUP_CONTACT_FIELDS: FieldMap :=
    [("group_uuid", STRING), ("contact_uuid", STRING)]

  const GROUP_FIELDS: FieldMap :=
    [("name", STRING), ("uuid", STRING)]

  const FLOWS_FIELDS: FieldMap :=
    [("labels", STRING), ("name", STRING), ("uuid", STRING)]

  const FLOW_RUNS_FIELDS: FieldMap :=
    [("modified_on", TIMESTAMP), ("responded", BOOLEAN), ("contact_uuid", STRING),
     ("flow_uuid", STRING), ("exit_type", STRING), ("created_on", TIMESTAMP),
     ("exited_on", TIMESTAMP), ("id", INTEGER)]

  const FLOW_RUN_VALUES_FIELDS: FieldMap :=
    [("input", STRING), ("time", TIMESTAMP), ("category", STRING),
     ("name", STRING), ("value", STRING), ("run_id", INTEGER)]

  // Each configured field map names each column once (its type says so); its key set is exactly the listed columns.

  lemma ContactFieldsNames()
    ensures DistinctNames(CONTACT_FIELDS)
    ensures Names(CONTACT_FIELDS) == {"uuid", "modified_on", "urn"}
  {
  }

  lemma GroupContactFieldsNames()
    ensures DistinctNames(GROUP_CONTACT_FIELDS)
    ensures Names(GROUP_CONTACT_FIELDS) == {"group_uuid", "contact_uuid"}
  {
  }

  lemma GroupFieldsNames()
    ensures DistinctNames(GROUP_FIELDS)
    ensures Names(GROUP_FIELDS) == {"name", "uuid"}
  {
  }

  lemma FlowsFieldsNames()
    ensures DistinctNames(FLOWS_FIELDS)
    ensures Names(FLOWS_FIELDS) == {"labels", "name", "uuid"}
  {
  }

  lemma FlowRunsFieldsNames()
    ensures DistinctNames(FLOW_RUNS_FIELDS)
    ensures Names(FLOW_RUNS_FIELDS) == {"modified_on", "responded", "contact_uuid", "flow_uuid", "exit_type", "created_on", "exited_on", "id"}
  {
    FlowRunsFieldsKeys();
  }

  lemma FlowRunsFieldsKeys()
    ensures Names(FLOW_RUNS_FIELDS) == {"modified_on", "responded", "contact_uuid", "flow_uuid", "exit_type", "created_on", "exited_on", "id"}
  {
  }

  lemma FlowRunValuesFieldsNames()
    ensures DistinctNames(FLOW_RUN_VALUES_FIELDS)
    ensures Names(FLOW_RUN_VALUES_FIELDS) == {"input", "time", "category", "name", "value", "run_id"}
  {
  }
}
