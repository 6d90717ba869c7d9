# RapidPro to BigQuery sync — a Dafny model

This project models the core of a one-shot job. The job reads groups, contacts,
flows and flow runs from a RapidPro workspace. It reshapes them into flat JSON rows
and loads the rows into six BigQuery tables: `flows`, `flow_runs`,
`flow_run_values`, `groups`, `contacts_raw` and `group_contacts`.

The model covers the following:

- the table schemas from `settings.py`, as ordered `(column, type)` sequences whose column names are distinct, as dict keys are;
- the four transforms that turn RapidPro objects into rows:
  - `get_groups` and `get_flows`;
  - `get_contacts_and_contact_groups`, including its contact-field coercion exactly
    as written;
  - `get_flow_runs`, with its flow / batch / run / value nesting;
- the load-job configuration chosen by `upload_to_bigquery`;
- the "first non-empty watermark" rule of `get_last_record_date`;
- the table plan built by the `__main__` block: which tables, in which order, with
  which rows, schema and write disposition.

Modules:

| module | file | contents |
|---|---|---|
| `Wrappers` | `wrappers.dfy` | `Option` |
| `Values` | `values.dfy` | JSON-like values, rows, Python `str()` of scalars with the decimal round trip |
| `Settings` | `settings.dfy` | column types, field maps, dict-style lookup, the six schemas, a schema-fit predicate |
| `Seqs` | `seqs.dfy` | flattening of nested sequences and its index arithmetic |
| `Records` | `records.dfy` | the RapidPro client objects (contact, group, flow, run, run value) |
| `Contacts` | `contacts.dfy` | `get_groups`, `get_contacts_and_contact_groups` |
| `Flows` | `flows.dfy` | `get_flows`, `get_flow_runs` |
| `Upload` | `upload.dfy` | `upload_to_bigquery`'s job configuration, the tables dict, `get_last_record_date` |
| `Pipeline` | `pipeline.dfy` | the `__main__` plan |

Python's loops are modelled as accumulator folds (`Collect*`) that append in the
same order as the source. Lemmas characterise each fold by index. They also relate
each fold to an independent description: `Seqs.Concat` of the per-item rows, a
count defined by its own recursion, or a dict lookup.

The model has its own notion of a row fitting a schema, `Settings.FitsSchema`:

- every key is a column of the schema;
- every value has the JSON kind of its column type;
- `None` fits any column.

This is not BigQuery's exact acceptance rule. It makes precise which rows line up
with their declared schemas, and which do not.

## Model

| member | source | states |
|---|---|---|
| Values.PyStr | rapidpro_to_bigquery.py:136 | `str()` of a scalar: a string is kept unchanged; an integer becomes a canonical integer literal (no leading zero, no "-0") that parses back to the same integer |
| Values.IntToDecimal | rapidpro_to_bigquery.py:136 | the text of an integer is a canonical integer literal, with a leading minus exactly when the integer is negative |
| Values.IntRoundTrip | rapidpro_to_bigquery.py:136 | parsing the decimal text of any integer gives back that integer |
| Values.DecimalRoundTrip | rapidpro_to_bigquery.py:136 | parsing the decimal digits of any natural number gives back that number |
| Values.CanonicalDecimalUnique | rapidpro_to_bigquery.py:136 | a run of digits with no leading zero is the rendering of the number it denotes |
| Values.CanonicalIntUnique | rapidpro_to_bigquery.py:136 | a canonical integer literal reads back as an integer exactly when it is that integer's rendering |
| Values.PyStrIntUnique | rapidpro_to_bigquery.py:136 | `str()` of an integer is the one canonical literal that reads back as that integer, so the value column holds Python's exact text |
| Settings.Lookup | rapidpro_to_bigquery.py:70-71 | a column is found exactly when its name is a key of the field map, and the type found is the one stored under that name |
| Settings.LookupDistinct | settings.py:2-27 | looking up the i-th name of a field map gives the i-th type |
| Settings.FitsSchemaByColumn | settings.py:2-27 | a row whose keys are columns of a field map, and whose every value fits its column's type, fits the schema |
| Settings.ContactFieldsNames | settings.py:2-6 | the contact schema has the distinct columns uuid, modified_on and urn |
| Settings.GroupContactFieldsNames | settings.py:7 | the group-membership schema has the distinct columns group_uuid and contact_uuid |
| Settings.GroupFieldsNames | settings.py:8 | the group schema has the distinct columns name and uuid |
| Settings.FlowsFieldsNames | settings.py:9 | the flow schema has the distinct columns labels, name and uuid |
| Settings.FlowRunsFieldsNames | settings.py:10-19 | the flow-run schema has the eight distinct run columns |
| Settings.FlowRunValuesFieldsNames | settings.py:20-27 | the run-value schema has the six distinct value columns |
| Seqs.ConcatLength | rapidpro_to_bigquery.py:64-67 | the length of a flattening is the total of the part lengths |
| Seqs.ConcatAppend | rapidpro_to_bigquery.py:64-67 | flattening distributes over appending one more part |
| Seqs.ConcatIndex | rapidpro_to_bigquery.py:109-113 | element j of part i sits in the flattening at the total length of the parts before i, plus j |
| Seqs.ConcatMember | rapidpro_to_bigquery.py:109-113 | an element is in the flattening exactly when it is in one of the parts |
| Contacts.CollectGroups | rapidpro_to_bigquery.py:44-46 | the group loop keeps the rows already collected and appends one uuid/name row per group, in order |
| Contacts.GetGroups | rapidpro_to_bigquery.py:41-48 | one row per group, in order, whose uuid and name are the group's |
| Contacts.GroupRowMatchesSchema | rapidpro_to_bigquery.py:46 | a group row has exactly the columns of the group schema and fits it |
| Contacts.ApplyFieldNetRule | rapidpro_to_bigquery.py:69-76 | the net effect of one field: a field outside the contact schema changes nothing; a schema field is set to the raw value, except that an empty TIMESTAMP value becomes null; the `str()` written for STRING columns never survives |
| Contacts.LastValue | rapidpro_to_bigquery.py:69 | a field's value is found exactly when the contact has that field, and it is the value of its last entry |
| Contacts.ApplyFieldsEffect | rapidpro_to_bigquery.py:69-76 | after the field loop, a key is present exactly when it was present before or the contact sets a schema field of that name; the value is the coerced last value when set and the earlier value otherwise |
| Contacts.ContactRowKeys | rapidpro_to_bigquery.py:59-76 | a contact row holds uuid, modified_on and exactly those schema fields the contact has, so its keys are always columns of the contact schema |
| Contacts.ContactRowValues | rapidpro_to_bigquery.py:59-76 | a contact row holds the coerced last value of every schema field the contact has, and the contact's uuid and modified_on text where no custom field of that name overrides them |
| Contacts.ContactRowAt | rapidpro_to_bigquery.py:59-76 | every column of a contact row is a contact-schema column, holding the kept custom value if there is one and the contact's own uuid or modified_on otherwise |
| Contacts.KeptValueStep | rapidpro_to_bigquery.py:69-76 | a later entry for a field wins over an earlier one; the first entry counts only when no later one sets the field |
| Contacts.CollectPairs | rapidpro_to_bigquery.py:64-67 | the membership loop keeps earlier pairs and appends one (contact, group) pair per group of the contact, in order |
| Contacts.GroupPairs | rapidpro_to_bigquery.py:64-67 | a contact contributes exactly one pair per group, in group order, each naming the contact and that group |
| Contacts.CollectContactsRows | rapidpro_to_bigquery.py:56-78 | the contact loop keeps earlier rows and appends exactly one row per contact, in order |
| Contacts.CollectContactsMemberships | rapidpro_to_bigquery.py:57-67 | the contact loop appends the flattening of every contact's group pairs, in contact order |
| Contacts.ContactTablesShape | rapidpro_to_bigquery.py:51-80 | the contacts table has one row per contact, in input order; the membership table is the flattening of the per-contact pairs |
| Contacts.MembershipsTotal | rapidpro_to_bigquery.py:64-67 | the pair lists together hold as many pairs as the contacts have groups |
| Contacts.GroupContactsCount | rapidpro_to_bigquery.py:57-67 | the membership table has exactly as many rows as the contacts have groups in total |
| Contacts.GroupContactsOrder | rapidpro_to_bigquery.py:58-67 | the pair for group j of contact i sits right after the pairs of all earlier contacts: ordered by contact, then by group |
| Contacts.GroupContactsMembers | rapidpro_to_bigquery.py:58-67 | a row is in the membership table exactly when it pairs some contact with one of its groups |
| Contacts.GroupContactsReferToContacts | rapidpro_to_bigquery.py:58-67 | when no custom field overrides the uuid, every pair's contact_uuid is the uuid in that contact's row |
| Contacts.PairRowMatchesSchema | rapidpro_to_bigquery.py:65-67 | a pair row has exactly the membership columns and fits the schema |
| Contacts.ContactColumnsHoldText | settings.py:2-6 | every contact column is a STRING or a TIMESTAMP column |
| Contacts.ContactRowFitsSchema | rapidpro_to_bigquery.py:69-78 | a contact row fits the contact schema exactly when every schema field the contact keeps is text or null |
| Contacts.TextContactRowFits | rapidpro_to_bigquery.py:69-78 | if every kept schema field is text or null, the contact row fits its schema |
| Contacts.FittingContactRowKeepsText | rapidpro_to_bigquery.py:69-78 | if a contact row fits its schema, every kept schema field is text or null |
| Contacts.NumericUrnIsKeptRaw | rapidpro_to_bigquery.py:71-76 | a numeric urn reaches the row as a number, not as its `str()`, so that row does not fit the STRING column |
| Flows.CollectFlows | rapidpro_to_bigquery.py:93-101 | the flow loop keeps earlier rows and appends one row per flow, in order |
| Flows.GetFlows | rapidpro_to_bigquery.py:90-102 | one row per flow, in order, with the flow's uuid, its name, and the names of its labels in label order |
| Flows.FlowRowAgainstSchema | rapidpro_to_bigquery.py:95-101 | a flow row has exactly the flow schema's columns, but its labels list does not fit the STRING column |
| Flows.CollectValues | rapidpro_to_bigquery.py:132-142 | the value loop keeps earlier rows and appends one row per run value, in order |
| Flows.ValueRows | rapidpro_to_bigquery.py:132-142 | a run contributes one value row per value, in order, each carrying the run's id and its value |
| Flows.CollectRunsRows | rapidpro_to_bigquery.py:113-130 | the run loop appends exactly one row per run, in order |
| Flows.CollectRunsValues | rapidpro_to_bigquery.py:113-142 | the run loop appends the flattening of each run's value rows, in run order |
| Flows.CollectRunsSplit | rapidpro_to_bigquery.py:113-142 | running the run loop over two run lists in turn is the same as running it over their concatenation |
| Flows.CollectBatchesFlat | rapidpro_to_bigquery.py:110-142 | going batch by batch is the same as going over the flattened batches |
| Flows.CollectFlowRunsFlat | rapidpro_to_bigquery.py:109-142 | going flow by flow is the same as going over all fetched runs in flow order |
| Flows.FlowRunsRows | rapidpro_to_bigquery.py:105-144 | the runs table has one row per fetched run, in fetch order |
| Flows.FlowRunsValues | rapidpro_to_bigquery.py:105-144 | the values table is the flattening of every fetched run's value rows, in run order |
| Flows.RunOrder | rapidpro_to_bigquery.py:109-130 | run p of batch b of flow i sits after all runs of earlier flows and earlier batches: ordered by flow, then batch, then position |
| Flows.FetchedRunAt | rapidpro_to_bigquery.py:109-113 | among all fetched runs, run p of batch b of flow i comes after all runs of earlier flows and earlier batches |
| Flows.ValueRowListsTotal | rapidpro_to_bigquery.py:132-142 | the value-row lists together hold as many rows as the runs have values |
| Flows.FlowRunValuesCount | rapidpro_to_bigquery.py:105-144 | the values table has exactly as many rows as the fetched runs have values in total |
| Flows.FlowRunValuesOrder | rapidpro_to_bigquery.py:113-142 | value j of run k sits after the values of all earlier runs |
| Flows.FlowRunValueFields | rapidpro_to_bigquery.py:119-142 | a value row's run_id equals the id in its run's row, and its value is the `str()` of the source value |
| Flows.FlowRunValuesReferToRuns | rapidpro_to_bigquery.py:119-142 | every value row's run_id is the id of some row of the runs table |
| Flows.RunRowExitedOn | rapidpro_to_bigquery.py:115-127 | a run row's exited_on is null exactly when the run has not exited, and the exit time's text otherwise |
| Flows.RunRowExitType | rapidpro_to_bigquery.py:128 | a run row's exit_type is null exactly when the run has no exit type, and that exit type otherwise |
| Flows.ValueRowOptionals | rapidpro_to_bigquery.py:137-140 | a value row's category and input are each null exactly when the result has none, and the text otherwise |
| Flows.RunRowMatchesSchema | rapidpro_to_bigquery.py:119-130 | a run row has exactly the run schema's columns and fits it |
| Flows.RunRowKeys | rapidpro_to_bigquery.py:119-130 | a run row has exactly the eight run columns |
| Flows.RunRowColumnsFit | rapidpro_to_bigquery.py:119-130 | each run column's value fits that column's type |
| Flows.ValueRowMatchesSchema | rapidpro_to_bigquery.py:133-142 | a value row has exactly the value schema's columns and fits it |
| Upload.CollectSchema | rapidpro_to_bigquery.py:156-158 | the schema loop appends one schema field per map entry, with its name and type, in map order |
| Upload.JobConfig | rapidpro_to_bigquery.py:147-164 | the load job is newline-delimited JSON; it replaces the table exactly for flows and groups, with no schema, one allowed bad record and no autodetection; every other table is appended to, with a schema that follows the field map entry by entry |
| Upload.ReplacedTablesIgnoreFields | rapidpro_to_bigquery.py:148-154 | for flows and groups the configuration does not depend on the field map |
| Upload.AppendSchemaNames | rapidpro_to_bigquery.py:155-164 | an appended table's schema names exactly the field map's columns |
| Upload.AppendSchemaDistinct | rapidpro_to_bigquery.py:155-158 | an appended table's schema lists each column once, since the field dict has each key once |
| Upload.DictSetFresh | rapidpro_to_bigquery.py:187-227 | setting a key the dictionary does not hold appends it at the end |
| Upload.DictSetExisting | rapidpro_to_bigquery.py:187-227 | setting a key the dictionary holds replaces its entry in place, keeping its position |
| Upload.DictSetNames | rapidpro_to_bigquery.py:187-227 | setting a key keeps the dict's key order, and adds the key at the end only when it is new |
| Upload.DictUpdateFresh | rapidpro_to_bigquery.py:187-227 | updating a dict with distinct keys it does not yet hold appends them in order |
| Upload.LastRecordDate | rapidpro_to_bigquery.py:83-87 | the watermark is absent exactly when every result row is empty, and is otherwise the rendering of the first non-empty row |
| Pipeline.CollectJobs | rapidpro_to_bigquery.py:229-233 | the upload loop makes one load job per table, in dict order, into the dataset's table of that name, with the rows of that table and its configuration |
| Pipeline.AssembledTables | rapidpro_to_bigquery.py:177-227 | the tables dict is the three flow tables (only when flow import is on) followed by the three contact tables |
| Pipeline.AssembledOrder | rapidpro_to_bigquery.py:177-227 | the dict's keys follow the fixed table order, each paired with its own schema |
| Pipeline.AssembleFresh | rapidpro_to_bigquery.py:177-227 | updating an empty dict with the flow entries (when on) and then the contact entries lists them in that order, since all six keys are distinct |
| Pipeline.SyncPlan | rapidpro_to_bigquery.py:176-233 | the run uploads exactly the tables of the fixed order, each into the dataset's table of that name, configured for that table's schema |
| Pipeline.SyncContactRows | rapidpro_to_bigquery.py:204-233 | the last three uploads carry the groups, and the contact rows and memberships of the contacts fetched after the contacts_raw modified_on watermark |
| Pipeline.SyncFlowRows | rapidpro_to_bigquery.py:179-202 | with flow import on, the first three uploads carry the flow rows, and the run and value rows of the runs fetched after the flow_runs created_on watermark |
| Pipeline.FullPlan | rapidpro_to_bigquery.py:176-233 | with flow import on, any job list following the plan has six jobs, in the listed order, replacing flows and groups and appending to the rest |
| Pipeline.ConfiguredSync | rapidpro_to_bigquery.py:176-233 | with the configured switch, a run loads six tables in order: flows and groups are replaced, the other four appended to |
| Pipeline.ContactWatermark | rapidpro_to_bigquery.py:204-233 | contacts are fetched after the first non-empty result of the contacts_raw modified_on query, and their rows and memberships are the last two uploads |
| Pipeline.FlowRunWatermark | rapidpro_to_bigquery.py:180-202 | with flow import on, runs are fetched after the first non-empty result of the flow_runs created_on query, and their run and value rows are the second and third uploads |

## Left out

- Credentials, environment variables and client construction (`rapidpro_to_bigquery.py:1-33`) are configuration and I/O, not logic.
- `log` (`rapidpro_to_bigquery.py:36-38`) and the progress prints only write to the console.
- RapidPro pagination and rate-limit retries are left out. The fetched objects are given to the model as parameters: a group list, a flow list, a contact fetch keyed by the watermark, and a run fetch keyed by flow uuid and watermark that returns batches.
- The BigQuery watermark query (`rapidpro_to_bigquery.py:84-85`) is left out. Its text and execution are I/O. Its result column for each (table, field) is the `query` parameter of `Pipeline.SyncFromWarehouse`.
- The `strftime` format of the watermark is left out. It becomes the `render` parameter of `Pipeline.SyncFromWarehouse` and `Upload.LastRecordDate`.
- Upload.LastRecordDate: Python truthiness of a result is modelled as `Some`/`None`. A present but falsy datetime cannot occur.
- Submitting the load job, waiting on it, and printing its errors (`rapidpro_to_bigquery.py:166-173`) are service calls. The model stops at the job's destination, rows and configuration.
- Timestamps are opaque. `isoformat()` is modelled as a stored text, `DateTime.iso`, because date rendering is library behaviour.
- Floating-point contact field and run values are left out. Scalars are null, booleans, integers and strings, because Python's float formatting is out of scope.
- Values.PyStr: states the contents of `str()` only for strings and integers. For `None` and booleans the result is the fixed Python text, with no further property.
- Contacts.GroupContactsReferToContacts: holds only when no custom contact field named `uuid` exists. The source lets such a field overwrite the row's uuid, since `uuid` is in the contact schema.
- Pipeline.SyncContactRows: states the rows of each table in terms of the transforms. It does not repeat the transforms' own properties, which are proved in `Contacts` and `Flows`.
