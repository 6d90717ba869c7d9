/**
 `get_flows` and `get_flow_runs`: flattening flows, runs and run results
 into rows for the `flows`, `flow_runs` and `flow_run_values` tables.
 The run fetch is a parameter: for a flow uuid and the watermark it yields
 the batches the client's `iterfetches` would produce.
 */
module Flows {
  import opened Wrappers
  import opened Values
  import opened Settings
  import opened Records
  import opened Seqs

  // ---------------------------------------------------------------------------
  // Flows
  // ---------------------------------------------------------------------------

  /** The names of a flow's labels, as a JSON list of strings. */
  function LabelNames(labels: seq<ObjectRef>): Value {
    List(seq(|labels|, i requires 0 <= i < |labels| => Str(labels[i].name)))
  }

  function FlowRow(f: Flow): Row {
    map["uuid" := Str(f.uuid), "name" := Str(f.name), "labels" := LabelNames(f.labels)]
  }

  /** The loop that appends one row per flow to `acc`. */
  function CollectFlows(acc: seq<Row>, flows: seq<Flow>): (r: seq<Row>)
    ensures |r| == |acc| + |flows|
    ensures r[..|acc|] == acc
    ensures forall i :: |acc| <= i < |r| ==> r[i] == FlowRow(flows[i - |acc|])
    decreases |flows|
  {
    if |flows| == 0 then acc
    else CollectFlows(acc + [FlowRow(flows[0])], flows[1..])
  }

  /**
   One row per flow, in fetch order, carrying the flow's uuid, its name and
   the list of its label names in label order.
   */
  function GetFlows(flows: seq<Flow>): (r: seq<Row>)
    ensures |r| == |flows|
    ensures forall i :: 0 <= i < |flows| ==>
              "uuid" in r[i] && r[i]["uuid"] == Str(flows[i].uuid) &&
              "name" in r[i] && r[i]["name"] == Str(flows[i].name) &&
              "labels" in r[i] && r[i]["labels"].List? &&
              |r[i]["labels"].items| == |flows[i].labels| &&
              forall j :: 0 <= j < |flows[i].labels| ==>
                r[i]["labels"].items[j] == Str(flows[i].labels[j].name)
  {
    CollectFlows([], flows)
  }

  /**
   A flow row has exactly the columns of the flows schema, but its `labels`
   column holds a list where the schema says STRING: the flows table is
   loaded without that schema.
   */
  lemma FlowRowAgainstSchema(f: Flow)
    ensures FlowRow(f).Keys == Names(FLOWS_FIELDS)
    ensures !FitsSchema(FlowRow(f), FLOWS_FIELDS)
  {
    FlowsFieldsNames();
    assert Lookup(FLOWS_FIELDS, "labels") == Some(STRING);
  }

  // ---------------------------------------------------------------------------
  // Runs and their results
  // ---------------------------------------------------------------------------

  /** `exited_on`: None when the run has not exited, else the exit time. */
  function ExitedOn(run: Run): Value {
    match run.exitedOn
    case None => Null
    case Some(t) => Str(t.iso)
  }

  function RunRow(run: Run): Row {
    map["id" := Int(run.id),
        "flow_uuid" := Str(run.flow.uuid),
        "contact_uuid" := Str(run.contact.uuid),
        "responded" := Bool(run.responded),
        "created_on" := Str(run.createdOn.iso),
        "modified_on" := Str(run.modifiedOn.iso),
        "exited_on" := ExitedOn(run),
        "exit_type" := OptStr(run.exitType)]
  }

  function ValueRow(runId: int, v: RunValue): Row {
    map["run_id" := Int(runId),
        "value" := Str(PyStr(v.value)),
        "category" := OptStr(v.category),
        "time" := Str(v.time.iso),
        "name" := Str(v.name),
        "input" := OptStr(v.input)]
  }

  /** The loop that appends one row per result of a run to `acc`. */
  function CollectValues(acc: seq<Row>, runId: int, values: seq<RunValue>): (r: seq<Row>)
    ensures |r| == |acc| + |values|
    ensures r[..|acc|] == acc
    ensures forall j :: |acc| <= j < |r| ==> r[j] == ValueRow(runId, values[j - |acc|])
    decreases |values|
  {
    if |values| == 0 then acc
    else CollectValues(acc + [ValueRow(runId, values[0])], runId, values[1..])
  }

  /** The result rows of one run, one per result, in the run's result order. */
  function ValueRows(run: Run): (r: seq<Row>)
    ensures |r| == |run.values|
    ensures forall j :: 0 <= j < |r| ==> r[j] == ValueRow(run.id, run.values[j])
  {
    CollectValues([], run.id, run.values)
  }

  /** The result rows grouped by run. */
  function ValueRowLists(runs: seq<Run>): seq<seq<Row>> {
    seq(|runs|, k requires 0 <= k < |runs| => ValueRows(runs[k]))
  }

  /** The number of results over all runs. */
  function ValueCount(runs: seq<Run>): nat
    decreases |runs|
  {
    if |runs| == 0 then 0 else |runs[0].values| + ValueCount(runs[1..])
  }

  datatype RunTables = RunTables(runs: seq<Row>, values: seq<Row>)

  /** The loop over the runs of one batch, appending to both lists. */
  function CollectRuns(acc: RunTables, runs: seq<Run>): RunTables
    decreases |runs|
  {
    if |runs| == 0 then acc
    else CollectRuns(RunTables(acc.runs + [RunRow(runs[0])], acc.values + ValueRows(runs[0])), runs[1..])
  }

  /** The loop over the batches of one flow. */
  function CollectBatches(acc: RunTables, batches: seq<seq<Run>>): RunTables
    decreases |batches|
  {
    if |batches| == 0 then acc
    else CollectBatches(CollectRuns(acc, batches[0]), batches[1..])
  }

  /** Whether every flow row has the `uuid` key the run fetch reads. */
  predicate HaveUuids(flows: seq<Row>) {
    forall i :: 0 <= i < |flows| ==> "uuid" in flows[i]
  }

  /** The loop over the flows, fetching each flow's runs after the watermark. */
  function CollectFlowRuns(
    acc: RunTables,
    flows: seq<Row>,
    after: Option<string>,
    fetch: (Value, Option<string>) -> seq<seq<Run>>
  ): RunTables
    requires HaveUuids(flows)
    decreases |flows|
  {
    if |flows| == 0 then acc
    else CollectFlowRuns(CollectBatches(acc, fetch(flows[0]["uuid"], after)), flows[1..], after, fetch)
  }

  /** `get_flow_runs` on the flow rows, the watermark and the run fetch. */
  function GetFlowRuns(
    flows: seq<Row>,
    after: Option<string>,
    fetch: (Value, Option<string>) -> seq<seq<Run>>
  ): RunTables
    requires HaveUuids(flows)
  {
    CollectFlowRuns(RunTables([], []), flows, after, fetch)
  }

  /** The runs fetched for each flow, batch after batch. */
  function FlowRunLists(
    flows: seq<Row>,
    after: Option<string>,
    fetch: (Value, Option<string>) -> seq<seq<Run>>
  ): seq<seq<Run>>
    requires HaveUuids(flows)
  {
    seq(|flows|, i requires 0 <= i < |flows| => Concat(fetch(flows[i]["uuid"], after)))
  }

  /** Every fetched run: flow by flow, batch by batch, in batch order. */
  function FetchedRuns(
    flows: seq<Row>,
    after: Option<string>,
    fetch: (Value, Option<string>) -> seq<seq<Run>>
  ): seq<Run>
    requires HaveUuids(flows)
  {
    Concat(FlowRunLists(flows, after, fetch))
  }

  // ---------------------------------------------------------------------------
  // What the run loops produce
  // ---------------------------------------------------------------------------

  /** The run loop appends one row per run, in run order. */
  lemma {:induction false} CollectRunsRows(acc: RunTables, runs: seq<Run>)
    ensures |CollectRuns(acc, runs).runs| == |acc.runs| + |runs|
    ensures CollectRuns(acc, runs).runs[..|acc.runs|] == acc.runs
    ensures forall k :: |acc.runs| <= k < |CollectRuns(acc, runs).runs| ==>
              CollectRuns(acc, runs).runs[k] == RunRow(runs[k - |acc.runs|])
    decreases |runs|
  {
    if |runs| > 0 {
      var next := RunTables(acc.runs + [RunRow(runs[0])], acc.values + ValueRows(runs[0]));
      CollectRunsRows(next, runs[1..]);
      var r := CollectRuns(acc, runs);
      assert r == CollectRuns(next, runs[1..]);
      assert r.runs[..|next.runs|] == next.runs;
      assert r.runs[..|acc.runs|] == next.runs[..|acc.runs|] == acc.runs;
      forall k | |acc.runs| <= k < |r.runs|
        ensures r.runs[k] == RunRow(runs[k - |acc.runs|])
      {
        if k == |acc.runs| {
          assert r.runs[k] == next.runs[k];
        } else {
          assert runs[1..][k - |next.runs|] == runs[k - |acc.runs|];
        }
      }
    }
  }

  /** The run loop appends the result rows of every run, run by run. */
  lemma {:induction false} CollectRunsValues(acc: RunTables, runs: seq<Run>)
    ensures CollectRuns(acc, runs).values == acc.values + Concat(ValueRowLists(runs))
    decreases |runs|
  {
    if |runs| > 0 {
      var next := RunTables(acc.runs + [RunRow(runs[0])], acc.values + ValueRows(runs[0]));
      assert CollectRuns(acc, runs) == CollectRuns(next, runs[1..]);
      ValueRowListsTail(runs);
      CollectRunsValues(next, runs[1..]);
      ConcatStep(acc.values, ValueRowLists(runs));
    }
  }

  lemma ValueRowListsTail(runs: seq<Run>)
    requires |runs| > 0
    ensures ValueRowLists(runs)[0] == ValueRows(runs[0])
    ensures ValueRowLists(runs)[1..] == ValueRowLists(runs[1..])
  {
    assert ValueRowLists(runs)[1..] == ValueRowLists(runs[1..]);
  }

  /** Running the run loop over two stretches of runs is running it over their concatenation. */
  lemma {:induction false} CollectRunsSplit(acc: RunTables, xs: seq<Run>, ys: seq<Run>)
    ensures CollectRuns(acc, xs + ys) == CollectRuns(CollectRuns(acc, xs), ys)
    decreases |xs|
  {
    if |xs| == 0 {
      assert xs + ys == ys;
    } else {
      assert (xs + ys)[0] == xs[0];
      assert (xs + ys)[1..] == xs[1..] + ys;
      CollectRunsSplit(RunTables(acc.runs + [RunRow(xs[0])], acc.values + ValueRows(xs[0])), xs[1..], ys);
    }
  }

  /** The batch loop does what the run loop does over all the batches' runs in order. */
  lemma {:induction false} CollectBatchesFlat(acc: RunTables, batches: seq<seq<Run>>)
    ensures CollectBatches(acc, batches) == CollectRuns(acc, Concat(batches))
    decreases |batches|
  {
    if |batches| > 0 {
      CollectBatchesFlat(CollectRuns(acc, batches[0]), batches[1..]);
      CollectRunsSplit(acc, batches[0], Concat(batches[1..]));
    }
  }

  /** The flow loop does what the run loop does over every fetched run in order. */
  lemma {:induction false} CollectFlowRunsFlat(
    acc: RunTables,
    flows: seq<Row>,
    after: Option<string>,
    fetch: (Value, Option<string>) -> seq<seq<Run>>
  )
    requires HaveUuids(flows)
    ensures CollectFlowRuns(acc, flows, after, fetch) == CollectRuns(acc, FetchedRuns(flows, after, fetch))
    decreases |flows|
  {
    if |flows| > 0 {
      var first := fetch(flows[0]["uuid"], after);
      CollectBatchesFlat(acc, first);
      CollectFlowRunsFlat(CollectBatches(acc, first), flows[1..], after, fetch);
      CollectRunsSplit(acc, Concat(first), FetchedRuns(flows[1..], after, fetch));
      assert FlowRunLists(flows, after, fetch)[1..] == FlowRunLists(flows[1..], after, fetch);
    }
  }

  /**
   `get_flow_runs` yields one run row per fetched run, in fetch order: flow
   by flow, then batch by batch, then by position within the batch.
   */
  lemma FlowRunsRows(flows: seq<Row>, after: Option<string>, fetch: (Value, Option<string>) -> seq<seq<Run>>)
    requires HaveUuids(flows)
    ensures |GetFlowRuns(flows, after, fetch).runs| == |FetchedRuns(flows, after, fetch)|
    ensures forall k :: 0 <= k < |FetchedRuns(flows, after, fetch)| ==>
              GetFlowRuns(flows, after, fetch).runs[k] == RunRow(FetchedRuns(flows, after, fetch)[k])
  {
    var runs := FetchedRuns(flows, after, fetch);
    var empty := RunTables([], []);
    CollectFlowRunsFlat(empty, flows, after, fetch);
    assert GetFlowRuns(flows, after, fetch) == CollectRuns(empty, runs);
    CollectRunsRows(empty, runs);
  }

  /** `get_flow_runs` yields the result rows of every fetched run, run by run. */
  lemma FlowRunsValues(flows: seq<Row>, after: Option<string>, fetch: (Value, Option<string>) -> seq<seq<Run>>)
    requires HaveUuids(flows)
    ensures GetFlowRuns(flows, after, fetch).values == Concat(ValueRowLists(FetchedRuns(flows, after, fetch)))
  {
    CollectFlowRunsFlat(RunTables([], []), flows, after, fetch);
    CollectRunsValues(RunTables([], []), FetchedRuns(flows, after, fetch));
  }

  /**
   Run `p` of batch `b` of flow `i` has its row right after the rows of the
   runs fetched for the flows before `i` and of the batches before `b`.
   */
  lemma RunOrder(
    flows: seq<Row>,
    after: Option<string>,
    fetch: (Value, Option<string>) -> seq<seq<Run>>,
    i: nat, b: nat, p: nat
  )
    requires HaveUuids(flows)
    requires i < |flows|
    requires b < |fetch(flows[i]["uuid"], after)| && p < |fetch(flows[i]["uuid"], after)[b]|
    ensures var batches := fetch(flows[i]["uuid"], after);
            var k := |FetchedRuns(flows[..i], after, fetch)| + TotalLength(batches[..b]) + p;
            && k < |GetFlowRuns(flows, after, fetch).runs|
            && GetFlowRuns(flows, after, fetch).runs[k] == RunRow(batches[b][p])
  {
    FetchedRunAt(flows, after, fetch, i, b, p);
    FlowRunsRows(flows, after, fetch);
  }

  /** Run `p` of batch `b` of flow `i` sits after the runs of earlier flows and earlier batches. */
  lemma FetchedRunAt(
    flows: seq<Row>,
    after: Option<string>,
    fetch: (Value, Option<string>) -> seq<seq<Run>>,
    i: nat, b: nat, p: nat
  )
    requires HaveUuids(flows)
    requires i < |flows|
    requires b < |fetch(flows[i]["uuid"], after)| && p < |fetch(flows[i]["uuid"], after)[b]|
    ensures var batches := fetch(flows[i]["uuid"], after);
            var k := |FetchedRuns(flows[..i], after, fetch)| + TotalLength(batches[..b]) + p;
            && k < |FetchedRuns(flows, after, fetch)|
            && FetchedRuns(flows, after, fetch)[k] == batches[b][p]
  {
    var batches := fetch(flows[i]["uuid"], after);
    var lists := FlowRunLists(flows, after, fetch);
    var offset := TotalLength(batches[..b]) + p;
    ConcatIndex(batches, b, p);
    assert lists[i] == Concat(batches);
    ConcatIndex(lists, i, offset);
    assert lists[..i] == FlowRunLists(flows[..i], after, fetch);
    ConcatLength(lists[..i]);
  }

  lemma {:induction false} ValueRowListsTotal(runs: seq<Run>)
    ensures TotalLength(ValueRowLists(runs)) == ValueCount(runs)
    decreases |runs|
  {
    if |runs| > 0 {
      assert ValueRowLists(runs)[1..] == ValueRowLists(runs[1..]);
      ValueRowListsTotal(runs[1..]);
    }
  }

  /** There is one result row per result of every fetched run. */
  lemma FlowRunValuesCount(flows: seq<Row>, after: Option<string>, fetch: (Value, Option<string>) -> seq<seq<Run>>)
    requires HaveUuids(flows)
    ensures |GetFlowRuns(flows, after, fetch).values| == ValueCount(FetchedRuns(flows, after, fetch))
  {
    FlowRunsValues(flows, after, fetch);
    ConcatLength(ValueRowLists(FetchedRuns(flows, after, fetch)));
    ValueRowListsTotal(FetchedRuns(flows, after, fetch));
  }

  /**
   Result `j` of fetched run `k` has its row right after the results of the
   runs before `k`.
   */
  lemma FlowRunValuesOrder(
    flows: seq<Row>,
    after: Option<string>,
    fetch: (Value, Option<string>) -> seq<seq<Run>>,
    k: nat, j: nat
  )
    requires HaveUuids(flows)
    requires k < |FetchedRuns(flows, after, fetch)|
    requires j < |FetchedRuns(flows, after, fetch)[k].values|
    ensures var runs := FetchedRuns(flows, after, fetch);
            var values := GetFlowRuns(flows, after, fetch).values;
            && ValueCount(runs[..k]) + j < |values|
            && values[ValueCount(runs[..k]) + j] == ValueRow(runs[k].id, runs[k].values[j])
  {
    var runs := FetchedRuns(flows, after, fetch);
    var lists := ValueRowLists(runs);
    FlowRunsValues(flows, after, fetch);
    ConcatIndex(lists, k, j);
    assert lists[..k] == ValueRowLists(runs[..k]);
    ValueRowListsTotal(runs[..k]);
  }

  /**
   The row of result `j` of fetched run `k` carries the `id` of that run's
   row and the `str()` of the result's value.
   */
  lemma FlowRunValueFields(
    flows: seq<Row>,
    after: Option<string>,
    fetch: (Value, Option<string>) -> seq<seq<Run>>,
    k: nat, j: nat
  )
    requires HaveUuids(flows)
    requires k < |FetchedRuns(flows, after, fetch)|
    requires j < |FetchedRuns(flows, after, fetch)[k].values|
    ensures var runs := FetchedRuns(flows, after, fetch);
            var r := GetFlowRuns(flows, after, fetch);
            var n := ValueCount(runs[..k]) + j;
            && n < |r.values| && k < |r.runs|
            && "run_id" in r.values[n] && "id" in r.runs[k] && "value" in r.values[n]
            && r.values[n]["run_id"] == r.runs[k]["id"]
            && r.values[n]["value"] == Str(PyStr(runs[k].values[j].value))
  {
    FlowRunValuesOrder(flows, after, fetch, k, j);
    FlowRunsRows(flows, after, fetch);
  }

  /** Every result row refers, by `run_id`, to the `id` of some run row. */
  lemma FlowRunValuesReferToRuns(
    flows: seq<Row>,
    after: Option<string>,
    fetch: (Value, Option<string>) -> seq<seq<Run>>,
    row: Row
  )
    requires HaveUuids(flows)
    requires row in GetFlowRuns(flows, after, fetch).values
    ensures "run_id" in row
    ensures exists k :: 0 <= k < |GetFlowRuns(flows, after, fetch).runs| &&
                        "id" in GetFlowRuns(flows, after, fetch).runs[k] &&
                        row["run_id"] == GetFlowRuns(flows, after, fetch).runs[k]["id"]
  {
    var runs := FetchedRuns(flows, after, fetch);
    var lists := ValueRowLists(runs);
    FlowRunsValues(flows, after, fetch);
    ConcatMember(lists, row);
    var k :| 0 <= k < |lists| && row in lists[k];
    var j :| 0 <= j < |lists[k]| && lists[k][j] == row;
    FlowRunValueFields(flows, after, fetch, k, j);
    FlowRunValuesOrder(flows, after, fetch, k, j);
  }

  /** `exited_on` is None exactly when the run has no exit time, and the exit time's rendering otherwise. */
  lemma RunRowExitedOn(run: Run)
    ensures RunRow(run)["exited_on"] == Null <==> run.exitedOn.None?
    ensures run.exitedOn.Some? ==> RunRow(run)["exited_on"] == Str(run.exitedOn.value.iso)
  {
  }

  /** `exit_type` is None exactly when the run has no exit type, and that exit type otherwise. */
  lemma RunRowExitType(run: Run)
    ensures RunRow(run)["exit_type"] == Null <==> run.exitType.None?
    ensures run.exitType.Some? ==> RunRow(run)["exit_type"] == Str(run.exitType.value)
  {
  }

  /** A result's `category` and `input` are None exactly when the result has none, and the text otherwise. */
  lemma ValueRowOptionals(runId: int, v: RunValue)
    ensures ValueRow(runId, v)["category"] == Null <==> v.category.None?
    ensures v.category.Some? ==> ValueRow(runId, v)["category"] == Str(v.category.value)
    ensures ValueRow(runId, v)["input"] == Null <==> v.input.None?
    ensures v.input.Some? ==> ValueRow(runId, v)["input"] == Str(v.input.value)
  {
  }

  /** A run row has exactly the columns of the flow-runs schema, each value fitting its column. */
  lemma RunRowMatchesSchema(run: Run)
    ensures RunRow(run).Keys == Names(FLOW_RUNS_FIELDS)
    ensures FitsSchema(RunRow(run), FLOW_RUNS_FIELDS)
  {
    RunRowKeys(run);
    RunRowColumnsFit(run);
    FlowRunsFieldsNames();
    FitsSchemaByColumn(RunRow(run), FLOW_RUNS_FIELDS);
  }

  lemma RunRowKeys(run: Run)
    ensures RunRow(run).Keys == Names(FLOW_RUNS_FIELDS)
  {
    FlowRunsFieldsNames();
  }

  lemma RunRowColumnsFit(run: Run)
    ensures forall i :: 0 <= i < |FLOW_RUNS_FIELDS| && FLOW_RUNS_FIELDS[i].0 in RunRow(run) ==>
              Fits(RunRow(run)[FLOW_RUNS_FIELDS[i].0], FLOW_RUNS_FIELDS[i].1)
  {
  }

  /** A result row has exactly the columns of the flow-run-values schema, each value fitting its column. */
  lemma ValueRowMatchesSchema(runId: int, v: RunValue)
    ensures ValueRow(runId, v).Keys == Names(FLOW_RUN_VALUES_FIELDS)
    ensures FitsSchema(ValueRow(runId, v), FLOW_RUN_VALUES_FIELDS)
  {
    ValueRowKeys(runId, v);
    ValueRowColumnsFit(runId, v);
    FlowRunValuesFieldsNames();
    FitsSchemaByColumn(ValueRow(runId, v), FLOW_RUN_VALUES_FIELDS);
  }

  lemma ValueRowKeys(runId: int, v: RunValue)
    ensures ValueRow(runId, v).Keys == Names(FLOW_RUN_VALUES_FIELDS)
  {
    FlowRunValuesFieldsNames();
  }

  lemma ValueRowColumnsFit(runId: int, v: RunValue)
    ensures forall i :: 0 <= i < |FLOW_RUN_VALUES_FIELDS| && FLOW_RUN_VALUES_FIELDS[i].0 in ValueRow(runId, v) ==>
              Fits(ValueRow(runId, v)[FLOW_RUN_VALUES_FIELDS[i].0], FLOW_RUN_VALUES_FIELDS[i].1)
  {
  }
}
