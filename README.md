# write_to_bq, modelled in Dafny

The package has two entry points that write a pandas DataFrame to BigQuery.

- `writeDfToBq` reads the destination table's schema when it can. It cuts that schema
  down to the DataFrame's columns and submits one append load of the DataFrame. If the
  schema cannot be read, the load asks BigQuery to detect the schema instead.
- `writeDfToBq_with_merging` works in three stages:
  1. It picks the match columns (`cols_to_check`, by default the non-numeric columns)
     and the update columns (`cols_to_update`, by default the numeric ones).
  2. It loads the DataFrame into a staging table `<table>_temptable`, truncating it.
     Then it merges the staging table into the destination with a transaction-wrapped
     `MERGE` script. The `ON` clause compares the match columns plus every REPEATED
     staging field that is not a key. The `UPDATE SET` list covers the update columns
     plus every loaded column that is in neither list.
  3. It drops the staging table. It waits for each job and raises at the first failure.
     Each job id is the caller's prefix, a stage infix, and the wall clock formatted as
     `%Y%m%d%H%M%S`.

The model keeps the source's split between computation and stepwise code:

- **Pure values and functions:**
  - the load configuration;
  - the schema pruning result, as a filter;
  - the column classification;
  - the SQL text;
  - the job ids.
- **Methods with loops or stepwise updates:**
  - the pruning loop that calls `list.remove` once per unwanted field (`PruneSchema`);
  - the `try`/`except` that rewrites the load configuration (`ReconcileSchema`);
  - the `+=` builds of the merge text (`BuildMergeQuery`, `SubmitMerge`);
  - the two loaders.

Each method except `WriteDfToBq` is proved equal to a specification function:

- `Pruned` for the pruning loop;
- `Reconciled` for the configuration rewrite;
- `MergeQuery` for the merge text;
- `StagingLoadJob` and `MergeDataJob` for the staging load and the merge job;
- `MergeRun` for the merge loader.

`WriteDfToBq` is specified field by field instead: the job id, the destination, the loaded columns, the format, both dispositions, and a schema that follows the fetch.

Lemmas then state the loaders' promises about those functions.

BigQuery is an oracle, the value `Warehouse`. It says:

- what `get_table(...).schema` returns for the destination and for the staging table,
  where None means the call raised;
- how each job ends: `Done`, or `Failed` with the errors the job reports.

The merge loader returns its outcome and the jobs it submitted, in order. The append loader
does not wait for its job, so it returns that one job and no outcome. Each job is an id plus
a request, which is either a load (destination, columns, configuration) or a SQL query.
Decoders read the column lists back out of the generated SQL, and round-trip lemmas tie
them to the text.

Files:

| file | content |
|---|---|
| `wrappers.dfy` | `Option`, `Result` |
| `seqs.dfy` | comprehensions with a condition (`Filter`) and without one (`Map`), `list.remove` (`RemoveFirst`), subsequence and distinctness facts |
| `text.dfy` | `str.join`, splitting on a character, and the lemmas that undo a join |
| `tables.dfy` | fields, schemas, DataFrame columns, table references, load configurations, jobs, the warehouse oracle |
| `schema_reconciler.dfy` | schema pruning, the schema `try`/`except`, `all_fields` |
| `columns.dfy` | default match and update columns, the extension of the update columns |
| `job_ids.dfy` | timestamps and job ids |
| `merge_statement.dfy` | the `ON` clause, the `UPDATE SET` list, the MERGE and DROP scripts, their decoders |
| `loaders.dfy` | both entry points and the stage sequencing |
| `scenarios.dfy` | worked examples on a concrete DataFrame and schema |

## Model

| member | source | states |
|---|---|---|
| SchemaReconciler.Pruned | write_to_bq/main.py:39-41 | the kept fields are exactly the live-schema fields whose name is a DataFrame column, in schema order |
| SchemaReconciler.FieldsToRemove | write_to_bq/main.py:124 | `fields_to_remove` holds exactly the live-schema fields whose name is not a DataFrame column |
| SchemaReconciler.PruneSchema | write_to_bq/main.py:124-127 | removing each unwanted field in turn, with `list.remove`, leaves exactly the wanted fields in their original order |
| SchemaReconciler.RemoveUnwanted | write_to_bq/main.py:126-127 | one `remove` finds its field and takes it out of the pending ones, and the wanted fields are untouched |
| SchemaReconciler.OnlyWantedLeft | write_to_bq/main.py:126-128 | when the loop ends, the schema holds nothing but the wanted fields |
| SchemaReconciler.ReconcileSchema | write_to_bq/main.py:118-134 | with a fetched schema, the config declares the pruned schema, turns detection off and returns that schema; when the fetch raises, only detection is turned on and `table_schema` stays None |
| SchemaReconciler.ReconciledFollowsFetch | write_to_bq/main.py:33-45 | schema handling keeps the format and dispositions; detection is on exactly when no schema is declared |
| SchemaReconciler.Reconciled | write_to_bq/main.py:128-133 | schema handling keeps the format and dispositions; detection is on exactly when the fetch failed; a fetched schema is declared pruned, and otherwise the schema is left as it was |
| SchemaReconciler.ReconciledAsWritten | write_to_bq/main.py:128-134 | with the `job_retry` write refused, detection always ends up on, and a fetched schema is still declared pruned |
| SchemaReconciler.ReconcileSchemaAsWritten | write_to_bq/main.py:118-134 | the `try`/`except` step by step with the `job_retry` write refused: the result is `ReconciledAsWritten`, and `table_schema` is still the pruned schema |
| SchemaReconciler.RetryWriteKeepsDetectionOn | write_to_bq/main.py:128-133 | as written, a fetched schema is declared but detection is on, so the configuration does not follow the fetch; the intended configuration does |
| SchemaReconciler.LoadedColumns | write_to_bq/main.py:137-139 | `all_fields` names only DataFrame columns: the pruned schema's names when that schema is non-empty, otherwise every column |
| Tables.StagingTable | write_to_bq/main.py:110 | the staging table is in the destination's project and dataset, named `<table>_temptable`, with a different path |
| Columns.NumericColumns | write_to_bq/main.py:105 | the default update columns are exactly the numeric columns, in DataFrame order |
| Columns.NonNumericColumns | write_to_bq/main.py:101 | the default match columns are exactly the non-numeric columns, in DataFrame order |
| Columns.KeyColumns | write_to_bq/main.py:101-103 | the caller's `cols_to_check` when given, else the non-numeric columns; empty exactly when none were given and every column is numeric |
| Columns.UpdateColumns | write_to_bq/main.py:105 | the caller's `cols_to_update` when given, else the numeric columns |
| Columns.DefaultsPartitionColumns | write_to_bq/main.py:101-105 | with both lists defaulted, every column is a key or an update column; with distinct names, none is both |
| Columns.Unclassified | write_to_bq/main.py:162 | the appended columns are exactly the loaded columns in neither list, in loading order |
| Columns.ExtendedUpdates | write_to_bq/main.py:162 | the update columns come first, unchanged; the appended columns follow in loading order; afterwards every loaded column is a key or an update column |
| Columns.AppendedColumnsDistinct | write_to_bq/main.py:162 | distinct loaded columns give distinct appended columns |
| Columns.ExtendIdempotent | write_to_bq/main.py:162 | extending the update columns a second time adds nothing |
| Columns.UpdateListEmptyIff | write_to_bq/main.py:162-177 | the `UPDATE SET` list is empty exactly when no update columns exist and every loaded column is a key |
| JobIds.Stamp | write_to_bq/main.py:52 | the `%Y%m%d%H%M%S` stamp is 14 digits |
| JobIds.AppendJobId | write_to_bq/main.py:52 | the append load's id is the prefix, an underscore and 14 digits |
| JobIds.StageJobId | write_to_bq/main.py:141 | a merge job's id is the prefix, the stage's infix (`_temptable_`, `_merge_data_` or `_delete_temp_data_`) and 14 digits |
| JobIds.DigitsRoundTrip | write_to_bq/main.py:52 | zero-padding a number that fits its width keeps its value |
| JobIds.StampRoundTrip | write_to_bq/main.py:52 | a `%Y%m%d%H%M%S` stamp is 14 digits and reads back as the clock reading it came from |
| JobIds.JobIdsDistinct | write_to_bq/main.py:141-202 | with one prefix, the three merge jobs never share an id, whatever the clock says, and none shares an id with an append load |
| JobIds.TimestampRecoverable | write_to_bq/main.py:52 | the clock reading can be read back from the last 14 characters of every job id |
| MergeStatement.RepeatedFields | write_to_bq/main.py:157-161 | `repeated_fields` is exactly the names of the REPEATED staging fields, in schema order |
| MergeStatement.OnClause | write_to_bq/main.py:165-167 | the `ON` clause opens with the comparison of the first key |
| MergeStatement.SetList | write_to_bq/main.py:177 | the `UPDATE SET` list is empty exactly when there is no update column |
| MergeStatement.MergeQuery | write_to_bq/main.py:169-186 | the script opens the block and transaction and names the MERGE into `target` from its staging table; it ends with the insert, commit and rollback tail |
| MergeStatement.DropQueryTargetsStaging | write_to_bq/main.py:200-201 | the DROP names `<table>_temptable` and is never the statement that drops the destination |
| MergeStatement.MatchColumns | write_to_bq/main.py:165-166 | the `ON` columns are the keys in order, then the REPEATED non-key fields in schema order |
| MergeStatement.ParseEqualityRoundTrip | write_to_bq/main.py:165 | `target.<col> = source.<col>` names exactly one column, which reads back |
| MergeStatement.ParseEqualitiesRoundTrip | write_to_bq/main.py:165-177 | a list of equalities reads back as its columns, in order |
| MergeStatement.EqualityHasNoSeparator | write_to_bq/main.py:165 | an equality over an identifier has no line break and no comma |
| MergeStatement.MatchColumnsAreIdentifiers | write_to_bq/main.py:165-166 | identifier keys and field names give identifier match columns |
| MergeStatement.OnClauseLines | write_to_bq/main.py:167 | the `ON` clause has one line per match column: the first equality, then `AND` and each further one |
| MergeStatement.OnClauseRoundTrip | write_to_bq/main.py:165-167 | the `ON` clause names exactly the match columns, in order |
| MergeStatement.SetListRoundTrip | write_to_bq/main.py:177 | the `UPDATE SET` list names exactly the update columns, in order |
| MergeStatement.BuildMergeQuery | write_to_bq/main.py:157-186 | the script built with the `+=` steps is exactly `MergeQuery` |
| MergeStatement.MergeQueryIsNotDrop | write_to_bq/main.py:169-201 | a merge script is never the staging table's DROP statement |
| MergeStatement.DecodeAssembledScript | write_to_bq/main.py:169-186 | the fixed text around the `ON` clause and the `UPDATE SET` list reads back as those two lists |
| MergeStatement.MergeQueryRoundTrip | write_to_bq/main.py:169-186 | reading the script back gives the match columns and the update columns, exactly and in order |
| Loaders.WriteDfToBq | write_to_bq/main.py:4-57 | one load of every DataFrame column into the destination, with Parquet, create-if-needed and append, the `<prefix>_<stamp>` id, and a schema that follows the fetch |
| Loaders.WriteDfToBqWithMerging | write_to_bq/main.py:60-211 | the outcome and the submitted jobs are exactly `MergeRun`: classification, the staging load, the merge, then the drop, stopping at the first failure |
| Loaders.SubmitStagingLoad | write_to_bq/main.py:110-144 | the staging load job and `all_fields` are exactly `StagingLoadJob` and `LoadedColumns` |
| Loaders.SubmitMerge | write_to_bq/main.py:157-192 | the merge job is exactly the MERGE script over the extended update columns, with the `_merge_data_` id |
| Loaders.RunStages | write_to_bq/main.py:136-211 | a run succeeds exactly when there are keys, the load succeeded, a merge job was planned, and the merge and the drop succeeded; it then submitted exactly those three jobs, in order |
| Loaders.MergeRun | write_to_bq/main.py:101-211 | the merge succeeds exactly when there are keys, the load succeeds, the staging schema is read, and the merge and the drop succeed; its third job is the drop of the staging table |
| Loaders.DropJobTargetsStaging | write_to_bq/main.py:199-204 | the third job has the `_delete_temp_data_` id and drops `<table>_temptable`, never the destination |
| Loaders.LoadedColumnsOfReconciled | write_to_bq/main.py:137 | `all_fields`, computed from the returned `table_schema`, is `LoadedColumns` |
| Loaders.StagingLoadJobProperties | write_to_bq/main.py:110-144 | the staging load writes into the staging table, never the destination, truncating and creating it if needed, with a schema that follows the fetch and only DataFrame columns |
| Loaders.StagesRunInOrder | write_to_bq/main.py:136-211 | each stage is submitted exactly when every earlier one succeeded; jobs appear in submission order; success means all three jobs succeeded, and it returns them |
| Loaders.FirstFailureIsReported | write_to_bq/main.py:148-209 | the outcome names the first stage that failed, with that job's id and errors, and that job is the last submitted |
| Loaders.RunStagesIdsDistinct | write_to_bq/main.py:138-204 | jobs with distinct ids make a run with pairwise distinct ids |
| Loaders.NoKeysNoJobs | write_to_bq/main.py:101-103 | a missing key set fails before any job; it is the only outcome that submits nothing, and it happens exactly when no keys were given and every column is numeric |
| Loaders.LoadFailureSubmitsNoQuery | write_to_bq/main.py:148-152 | a failed staging load reports the load's id and errors, and no query is submitted |
| Loaders.PlannedMergeIsNotDrop | write_to_bq/main.py:188-201 | the merge job never runs the drop statement |
| Loaders.MergeFailureKeepsStaging | write_to_bq/main.py:193-197 | a failed merge reports the merge's id and errors, and the staging table is never dropped |
| Loaders.FailedMergeNeverDrops | write_to_bq/main.py:193-204 | after a failed merge the run stops with the merge's id and errors, and no submitted job makes the drop's request |
| Loaders.DropFailureAfterMerge | write_to_bq/main.py:205-209 | a failed drop comes after a successful merge, and all three jobs were submitted |
| Loaders.RunJobIdsDistinct | write_to_bq/main.py:141-202 | the jobs of one merge have pairwise distinct ids |
| Scenarios.DefaultColumnsScenario | write_to_bq/main.py:101-105 | for columns `id`, `region` (text) and `amount` (float), the keys are `id, region` and the update column is `amount` |
| Scenarios.FlatMatchColumnsScenario | write_to_bq/main.py:158-166 | without REPEATED staging fields, the match columns are the keys |
| Scenarios.OnClauseScenario | write_to_bq/main.py:165-167 | that `ON` clause compares `id`, then `region`, on two lines |
| Scenarios.SetListScenario | write_to_bq/main.py:162-177 | nothing is appended to `amount`, and the SET list assigns `amount` alone |
| Scenarios.PruneScenario | write_to_bq/main.py:124-127 | pruning the fields `a, b, c` to the columns `a, c` keeps `a, c` in order |
| Scenarios.ReconcileScenario | write_to_bq/main.py:118-134 | the same live schema is declared as `a, c` with detection off; without one, detection is on |
| Scenarios.MergeFailureScenario | write_to_bq/main.py:193-197 | a merge that fails with one error reports one error after two jobs and drops nothing |

## Left out

- BigQuery itself: the client, `get_table`, `load_table_from_dataframe`, `query` and `result()`. They become the `Warehouse` oracle, which gives each lookup's schema and each job's outcome. The warehouse's effect on table contents is not modelled.
- Submission-time exceptions, such as a rejected job id or a network error, are not modelled. Only the outcome of waiting for a job is.
- The staging-table lookup raising at main.py:157 is not modelled as an exception. The source does not catch it and the call propagates; the model reports `StagingSchemaUnavailable` after the staging load.
- pandas type inference: whether `select_dtypes(include=['float','int'])` picks a column is a per-column flag, `Column.numeric`.
- DataFrame rows and values are not modelled, only column names. A load job carries the list of columns it loads.
- The wall clock `pd.to_datetime('now')` is a parameter, one reading per submission. The stamp round trip requires a four-digit year (1000 to 9999).
- `print` and the Spanish log messages are not modelled.
- The exception text: `JobFailed` carries the stage, the job id and the error list. The message gives the length of that list and then its elements.
- `len(job.errors)` when `errors` is None would itself raise. The model always has an error list.
- Loaders.WriteDfToBqWithMerging: a defaulted `cols_to_check` or `cols_to_update` is a pandas Index, not a list (main.py:101, 105). The `cols_to_check+cols_to_update` at main.py:162 is Index arithmetic whenever either list was defaulted. The `cols_to_update += [...]` there is Index arithmetic only when `cols_to_update` was defaulted; otherwise it is a plain in-place list extension. pandas evaluates Index arithmetic element-wise, and it raises when the lengths differ. The model uses list concatenation in both places, which is what the code evidently means.
- Loaders.WriteDfToBqWithMerging: a non-empty `cols_to_update` list from the caller is extended in place by the `+=` at main.py:162, so the caller sees the appended columns afterwards. A defaulted one is rebound at main.py:105 and never extended. The model returns the extended list as a new value, so this aliasing is not captured.
- The merge path's loader configuration follows the intended schema handling (`SchemaReconciler.ReconcileSchema`). The behaviour as written, with the `job_retry` write at main.py:131 refused, is modelled separately under Findings.
- Concurrency is not modelled. Two runs on the same destination share `<table>_temptable`.
- An empty `UPDATE SET` list gives SQL that BigQuery rejects. The model produces that text as the source does, so the merge job fails in the warehouse. `Columns.UpdateListEmptyIff` states exactly when it happens.
- Column names: the round-trip lemmas require identifiers (letters, digits, `_`). The source places column names into the SQL unquoted (main.py:165-177), so other names can give text that does not read back. Table paths are backtick-quoted (main.py:172, 173, 201), and `MergeStatement.MergeQueryRoundTrip` holds for any table name.
- Order of operations: the column classification (main.py:101-105) runs before the client is created (main.py:108), so a run without match columns submits no job at all. The model follows that order.

## Findings

| source | as written | input that shows it | evidently intended | confidence | as-written member | corrected member |
|---|---|---|---|---|---|---|
| write_to_bq/main.py:128-133 | after declaring the pruned schema and turning detection off, the code sets `job_config.job_retry = None`. A load configuration has no such property and the client library refuses unknown properties, so the bare `except` turns detection back on while the schema stays declared | any merge into a destination table whose schema can be read | the pruned schema declared with detection off, as the comment at main.py:130 says | medium; not executed; rests on the client library refusing properties a load configuration does not define | SchemaReconciler.RetryWriteKeepsDetectionOn | SchemaReconciler.ReconciledFollowsFetch |
