/**
 The script's entry point: fetch, flatten, assemble the ordered table
 dictionary, and load every table. Everything the script reads from the
 outside world is a parameter: the fetched groups and flows, the contact and
 run fetches (given the watermark), and the watermark query itself.
 */
module Pipeline {
  import opened Wrappers
  import opened Values
  import opened Settings
  import opened Records
  import opened Contacts
  import opened Flows
  import opened Upload

  /** What the messaging platform returns to the script. */
  datatype Source = Source(
    groups: seq<Group>,
    flows: seq<Flow>,
    contactsAfter: Option<string> -> seq<Contact>,
    runsAfter: (Value, Option<string>) -> seq<seq<Run>>
  )

  /** One load job: the destination table, its rows and its configuration. */
  datatype LoadJob = LoadJob(destination: string, rows: seq<Row>, config: LoadJobConfig)

  /** The tables the flow import adds, in the order the script inserts them. */
  const FLOW_TABLES: seq<string> := ["flows", "flow_runs", "flow_run_values"]

  /** The tables loaded on every run, in the order the script inserts them. */
  const CONTACT_TABLES: seq<string> := ["groups", "contacts_raw", "group_contacts"]

  /** The tables a run loads, in upload order. */
  function TableOrder(importFlowData: bool): seq<string> {
    (if importFlowData then FLOW_TABLES else []) + CONTACT_TABLES
  }

  /** The field map that belongs to each table. */
  function FieldMapOf(table: string): FieldMap {
    match table
    case "flows" => FLOWS_FIELDS
    case "flow_runs" => FLOW_RUNS_FIELDS
    case "flow_run_values" => FLOW_RUN_VALUES_FIELDS
    case "groups" => GROUP_FIELDS
    case "contacts_raw" => CONTACT_FIELDS
    case "group_contacts" => GROUP_CONTACT_FIELDS
    case _ => []
  }

  /** The table entries the flow import in the entry point contributes. */
  function FlowEntries(src: Source, lastRecordDate: (string, string) -> Option<string>): Tables {
    var flows := GetFlows(src.flows);
    var runs := GetFlowRuns(flows, lastRecordDate("flow_runs", "created_on"), src.runsAfter);
    [("flows", TableEntry(flows, FLOWS_FIELDS)),
     ("flow_runs", TableEntry(runs.runs, FLOW_RUNS_FIELDS)),
     ("flow_run_values", TableEntry(runs.values, FLOW_RUN_VALUES_FIELDS))]
  }

  /** The contact tables every run of the entry point contributes. */
  function ContactEntries(src: Source, lastRecordDate: (string, string) -> Option<string>): Tables {
    var groups := GetGroups(src.groups);
    var contacts := GetContactsAndContactGroups(src.contactsAfter(lastRecordDate("contacts_raw", "modified_on")));
    [("groups", TableEntry(groups, GROUP_FIELDS)),
     ("contacts_raw", TableEntry(contacts.contacts, CONTACT_FIELDS)),
     ("group_contacts", TableEntry(contacts.groupContacts, GROUP_CONTACT_FIELDS))]
  }

  /** The table dictionary the entry point assembles. */
  function AssembleTables(
    importFlowData: bool,
    src: Source,
    lastRecordDate: (string, string) -> Option<string>
  ): Tables {
    Assemble(importFlowData, FlowEntries(src, lastRecordDate), ContactEntries(src, lastRecordDate))
  }

  /** `tables = {}`, then `tables.update(flow entries)` when the flow import is on, then `tables.update(contact entries)`. */
  function Assemble(importFlowData: bool, flowEntries: Tables, contactEntries: Tables): Tables {
    var tables := if importFlowData then DictUpdate([], flowEntries) else [];
    DictUpdate(tables, contactEntries)
  }

  /** Whether `tables` holds the tables `names`, in that order, each with its own field map. */
  ghost predicate Keyed(tables: Tables, names: seq<string>) {
    && |tables| == |names|
    && forall i :: 0 <= i < |names| ==> tables[i].0 == names[i] && tables[i].1.fields == FieldMapOf(names[i])
  }

  /** The upload loop: one load job per dictionary entry, in dictionary order. */
  function CollectJobs(acc: seq<LoadJob>, dataset: string, tables: Tables): (r: seq<LoadJob>)
    ensures |r| == |acc| + |tables|
    ensures r[..|acc|] == acc
    ensures forall i :: |acc| <= i < |r| ==>
              var t := tables[i - |acc|];
              r[i] == LoadJob(dataset + "." + t.0, t.1.rows, JobConfig(t.0, t.1.fields))
    decreases |tables|
  {
    if |tables| == 0 then acc
    else
      var t := tables[0];
      CollectJobs(acc + [LoadJob(dataset + "." + t.0, t.1.rows, JobConfig(t.0, t.1.fields))], dataset, tables[1..])
  }

  /** The whole run: the load jobs submitted, in order. */
  function Sync(
    importFlowData: bool,
    dataset: string,
    src: Source,
    lastRecordDate: (string, string) -> Option<string>
  ): seq<LoadJob> {
    CollectJobs([], dataset, AssembleTables(importFlowData, src, lastRecordDate))
  }

  lemma AssembledTables(importFlowData: bool, src: Source, lastRecordDate: (string, string) -> Option<string>)
    ensures AssembleTables(importFlowData, src, lastRecordDate) ==
            (if importFlowData then FlowEntries(src, lastRecordDate) else []) + ContactEntries(src, lastRecordDate)
  {
    var flowEntries := FlowEntries(src, lastRecordDate);
    var contactEntries := ContactEntries(src, lastRecordDate);
    FlowEntriesKeyed(src, lastRecordDate);
    ContactEntriesKeyed(src, lastRecordDate);
    AssembleFresh(importFlowData, flowEntries, contactEntries);
  }

  /** Entries under the distinct flow and contact table names go into the dictionary one after the other. */
  lemma AssembleFresh(importFlowData: bool, flowEntries: Tables, contactEntries: Tables)
    requires Keyed(flowEntries, FLOW_TABLES)
    requires Keyed(contactEntries, CONTACT_TABLES)
    ensures Assemble(importFlowData, flowEntries, contactEntries) ==
            (if importFlowData then flowEntries else []) + contactEntries
  {
    assert TableNames(flowEntries) == FLOW_TABLES;
    assert TableNames(contactEntries) == CONTACT_TABLES;
    if importFlowData {
      DictUpdateFresh([], flowEntries);
      assert [] + flowEntries == flowEntries;
    }
    var tables := if importFlowData then flowEntries else [];
    assert TableNames(tables) == if importFlowData then FLOW_TABLES else [];
    DictUpdateFresh(tables, contactEntries);
  }

  lemma FlowEntriesKeyed(src: Source, lastRecordDate: (string, string) -> Option<string>)
    ensures Keyed(FlowEntries(src, lastRecordDate), FLOW_TABLES)
  {
    assert FieldMapOf("flows") == FLOWS_FIELDS;
    assert FieldMapOf("flow_runs") == FLOW_RUNS_FIELDS;
    assert FieldMapOf("flow_run_values") == FLOW_RUN_VALUES_FIELDS;
  }

  lemma ContactEntriesKeyed(src: Source, lastRecordDate: (string, string) -> Option<string>)
    ensures Keyed(ContactEntries(src, lastRecordDate), CONTACT_TABLES)
  {
    assert FieldMapOf("groups") == GROUP_FIELDS;
    assert FieldMapOf("contacts_raw") == CONTACT_FIELDS;
    assert FieldMapOf("group_contacts") == GROUP_CONTACT_FIELDS;
  }

  /** Each assembled entry is the table in its upload position, with the field map belonging to it. */
  lemma AssembledOrder(importFlowData: bool, src: Source, lastRecordDate: (string, string) -> Option<string>)
    ensures var tables := AssembleTables(importFlowData, src, lastRecordDate);
            var order := TableOrder(importFlowData);
            && |tables| == |order|
            && forall i :: 0 <= i < |order| ==> tables[i].0 == order[i] && tables[i].1.fields == FieldMapOf(order[i])
  {
    AssembledTables(importFlowData, src, lastRecordDate);
    FlowEntriesKeyed(src, lastRecordDate);
    ContactEntriesKeyed(src, lastRecordDate);
    KeyedAppend(if importFlowData then FlowEntries(src, lastRecordDate) else [],
                if importFlowData then FLOW_TABLES else [],
                ContactEntries(src, lastRecordDate), CONTACT_TABLES);
  }

  lemma KeyedAppend(t: Tables, names: seq<string>, u: Tables, more: seq<string>)
    requires Keyed(t, names)
    requires Keyed(u, more)
    ensures Keyed(t + u, names + more)
  {
  }

  /**
   A run loads the flow tables (when the flow import is on) and then the
   contact tables, in that order, each into the dataset, with the field map
   that belongs to it and the configuration that table gets.
   */
  lemma SyncPlan(
    importFlowData: bool,
    dataset: string,
    src: Source,
    lastRecordDate: (string, string) -> Option<string>
  )
    ensures var jobs := Sync(importFlowData, dataset, src, lastRecordDate);
            var order := TableOrder(importFlowData);
            && |jobs| == |order|
            && forall i :: 0 <= i < |order| ==>
                 && jobs[i].destination == dataset + "." + order[i]
                 && jobs[i].config == JobConfig(order[i], FieldMapOf(order[i]))
  {
    AssembledOrder(importFlowData, src, lastRecordDate);
  }

  /**
   The last three jobs load the groups, and the contact rows and memberships
   of the contacts fetched after the latest `contacts_raw.modified_on`.
   */
  lemma SyncContactRows(
    importFlowData: bool,
    dataset: string,
    src: Source,
    lastRecordDate: (string, string) -> Option<string>
  )
    ensures var jobs := Sync(importFlowData, dataset, src, lastRecordDate);
            var n := if importFlowData then 3 else 0;
            var contacts := GetContactsAndContactGroups(src.contactsAfter(lastRecordDate("contacts_raw", "modified_on")));
            && |jobs| == n + 3
            && jobs[n].rows == GetGroups(src.groups)
            && jobs[n + 1].rows == contacts.contacts
            && jobs[n + 2].rows == contacts.groupContacts
  {
    var ce := ContactEntries(src, lastRecordDate);
    var tables := AssembleTables(importFlowData, src, lastRecordDate);
    AssembledTables(importFlowData, src, lastRecordDate);
    var n := if importFlowData then 3 else 0;
    assert |tables| == n + 3 && tables[n..] == ce;
    assert Sync(importFlowData, dataset, src, lastRecordDate) == CollectJobs([], dataset, tables);
    JobRows(dataset, tables);
  }

  /**
   With the flow import on, the first three jobs load the flows, and the run
   and result rows of the runs fetched after the latest `flow_runs.created_on`.
   */
  lemma SyncFlowRows(
    dataset: string,
    src: Source,
    lastRecordDate: (string, string) -> Option<string>
  )
    ensures var jobs := Sync(true, dataset, src, lastRecordDate);
            var flows := GetFlows(src.flows);
            var runs := GetFlowRuns(flows, lastRecordDate("flow_runs", "created_on"), src.runsAfter);
            && |jobs| == 6
            && jobs[0].rows == flows
            && jobs[1].rows == runs.runs
            && jobs[2].rows == runs.values
  {
    var fe := FlowEntries(src, lastRecordDate);
    var tables := AssembleTables(true, src, lastRecordDate);
    AssembledTables(true, src, lastRecordDate);
    assert |tables| == 6 && tables[..3] == fe;
    assert Sync(true, dataset, src, lastRecordDate) == CollectJobs([], dataset, tables);
    JobRows(dataset, tables);
  }

  /** The upload loop loads each table's own rows. */
  lemma JobRows(dataset: string, tables: Tables)
    ensures |CollectJobs([], dataset, tables)| == |tables|
    ensures forall i :: 0 <= i < |tables| ==> CollectJobs([], dataset, tables)[i].rows == tables[i].1.rows
  {
  }

  /** Whether `jobs` loads the tables of `order`, in that order, the way `SyncPlan` describes. */
  ghost predicate FollowsPlan(jobs: seq<LoadJob>, dataset: string, order: seq<string>) {
    && |jobs| == |order|
    && forall i :: 0 <= i < |order| ==>
         && jobs[i].destination == dataset + "." + order[i]
         && jobs[i].config == JobConfig(order[i], FieldMapOf(order[i]))
  }

  /** Whether `jobs` loads the tables of `order` into `dataset`, replacing exactly the flows and groups tables. */
  ghost predicate Replaces(jobs: seq<LoadJob>, dataset: string, order: seq<string>) {
    && |jobs| == |order|
    && forall i :: 0 <= i < |order| ==>
         && jobs[i].destination == dataset + "." + order[i]
         && (jobs[i].config.writeDisposition == WRITE_TRUNCATE <==> order[i] == "flows" || order[i] == "groups")
  }

  lemma PlanReplaces(jobs: seq<LoadJob>, dataset: string, order: seq<string>)
    requires FollowsPlan(jobs, dataset, order)
    ensures Replaces(jobs, dataset, order)
  {
  }

  lemma FullPlan(jobs: seq<LoadJob>, dataset: string)
    requires Replaces(jobs, dataset, TableOrder(true))
    ensures |jobs| == 6
    ensures jobs[0].destination == dataset + ".flows"
    ensures jobs[1].destination == dataset + ".flow_runs"
    ensures jobs[2].destination == dataset + ".flow_run_values"
    ensures jobs[3].destination == dataset + ".groups"
    ensures jobs[4].destination == dataset + ".contacts_raw"
    ensures jobs[5].destination == dataset + ".group_contacts"
    ensures jobs[0].config.writeDisposition == WRITE_TRUNCATE
    ensures jobs[1].config.writeDisposition == WRITE_APPEND
    ensures jobs[2].config.writeDisposition == WRITE_APPEND
    ensures jobs[3].config.writeDisposition == WRITE_TRUNCATE
    ensures jobs[4].config.writeDisposition == WRITE_APPEND
    ensures jobs[5].config.writeDisposition == WRITE_APPEND
  {
    var order := TableOrder(true);
    FullOrder();
    PlannedJob(jobs, dataset, order, 0, "flows", ".flows", WRITE_TRUNCATE);
    PlannedJob(jobs, dataset, order, 1, "flow_runs", ".flow_runs", WRITE_APPEND);
    PlannedJob(jobs, dataset, order, 2, "flow_run_values", ".flow_run_values", WRITE_APPEND);
    PlannedJob(jobs, dataset, order, 3, "groups", ".groups", WRITE_TRUNCATE);
    PlannedJob(jobs, dataset, order, 4, "contacts_raw", ".contacts_raw", WRITE_APPEND);
    PlannedJob(jobs, dataset, order, 5, "group_contacts", ".group_contacts", WRITE_APPEND);
  }

  lemma FullOrder()
    ensures TableOrder(true) == ["flows", "flow_runs", "flow_run_values", "groups", "contacts_raw", "group_contacts"]
  {
  }

  /** The job a plan puts at position `k` loads `dataset.table` with `disposition`: replacing flows and groups, appending otherwise. */
  lemma PlannedJob(jobs: seq<LoadJob>, dataset: string, order: seq<string>, k: nat, table: string, suffix: string,
                   disposition: WriteDisposition)
    requires Replaces(jobs, dataset, order)
    requires k < |order| && order[k] == table
    requires suffix == "." + table
    requires disposition == if table == "flows" || table == "groups" then WRITE_TRUNCATE else WRITE_APPEND
    ensures jobs[k].destination == dataset + suffix
    ensures jobs[k].config.writeDisposition == disposition
  {
    assert dataset + "." + table == dataset + ("." + table);
  }

  /**
   With the configured switch on, a run loads six tables: `flows` and
   `groups` are replaced, the other four are appended to.
   */
  lemma ConfiguredSync(dataset: string, src: Source, lastRecordDate: (string, string) -> Option<string>)
    ensures var jobs := Sync(IMPORT_FLOW_DATA, dataset, src, lastRecordDate);
            && |jobs| == 6
            && jobs[0].destination == dataset + ".flows"
            && jobs[1].destination == dataset + ".flow_runs"
            && jobs[2].destination == dataset + ".flow_run_values"
            && jobs[3].destination == dataset + ".groups"
            && jobs[4].destination == dataset + ".contacts_raw"
            && jobs[5].destination == dataset + ".group_contacts"
            && jobs[0].config.writeDisposition == WRITE_TRUNCATE
            && jobs[1].config.writeDisposition == WRITE_APPEND
            && jobs[2].config.writeDisposition == WRITE_APPEND
            && jobs[3].config.writeDisposition == WRITE_TRUNCATE
            && jobs[4].config.writeDisposition == WRITE_APPEND
            && jobs[5].config.writeDisposition == WRITE_APPEND
  {
    SyncPlan(IMPORT_FLOW_DATA, dataset, src, lastRecordDate);
    PlanReplaces(Sync(IMPORT_FLOW_DATA, dataset, src, lastRecordDate), dataset, TableOrder(IMPORT_FLOW_DATA));
    FullPlan(Sync(IMPORT_FLOW_DATA, dataset, src, lastRecordDate), dataset);
  }

  // ---------------------------------------------------------------------------
  // The watermarks
  // ---------------------------------------------------------------------------

  /**
   `get_last_record_date(table, field)`: the latest value of `field` in
   `table`, as the warehouse query returns it, rendered for the platform's
   `after` filter; None when the query finds nothing.
   */
  function Watermarks(
    query: (string, string) -> seq<Option<DateTime>>,
    render: DateTime -> string
  ): (string, string) -> Option<string> {
    (table: string, field: string) => LastRecordDate(query(table, field), render)
  }

  /** The whole run, with the watermarks read from the warehouse. */
  function SyncFromWarehouse(
    importFlowData: bool,
    dataset: string,
    src: Source,
    query: (string, string) -> seq<Option<DateTime>>,
    render: DateTime -> string
  ): seq<LoadJob> {
    Sync(importFlowData, dataset, src, Watermarks(query, render))
  }

  /** Contacts are fetched after the first non-empty result of the `contacts_raw.modified_on` query. */
  lemma ContactWatermark(
    importFlowData: bool,
    dataset: string,
    src: Source,
    query: (string, string) -> seq<Option<DateTime>>,
    render: DateTime -> string
  )
    ensures var jobs := SyncFromWarehouse(importFlowData, dataset, src, query, render);
            var n := if importFlowData then 3 else 0;
            var after := LastRecordDate(query("contacts_raw", "modified_on"), render);
            var contacts := GetContactsAndContactGroups(src.contactsAfter(after));
            && |jobs| == n + 3
            && jobs[n + 1].rows == contacts.contacts
            && jobs[n + 2].rows == contacts.groupContacts
  {
    var lrd := Watermarks(query, render);
    assert lrd("contacts_raw", "modified_on") == LastRecordDate(query("contacts_raw", "modified_on"), render);
    SyncContactRows(importFlowData, dataset, src, lrd);
  }

  /** Runs are fetched after the first non-empty result of the `flow_runs.created_on` query. */
  lemma FlowRunWatermark(
    dataset: string,
    src: Source,
    query: (string, string) -> seq<Option<DateTime>>,
    render: DateTime -> string
  )
    ensures var jobs := SyncFromWarehouse(true, dataset, src, query, render);
            var after := LastRecordDate(query("flow_runs", "created_on"), render);
            var runs := GetFlowRuns(GetFlows(src.flows), after, src.runsAfter);
            && |jobs| == 6
            && jobs[1].rows == runs.runs
            && jobs[2].rows == runs.values
  {
    var lrd := Watermarks(query, render);
    assert lrd("flow_runs", "created_on") == LastRecordDate(query("flow_runs", "created_on"), render);
    SyncFlowRows(dataset, src, lrd);
  }
}
