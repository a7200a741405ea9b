/** The two entry points: `writeDfToBq`, which submits one append load, and
    `writeDfToBq_with_merging`, which loads into a staging table, merges it into the
    destination and drops it, waiting for each job and stopping at the first failure. */
module Loaders {
  import opened Wrappers
  import opened Tables
  import opened JobIds
  import opened SchemaReconciler
  import opened Columns
  import opened MergeStatement

  /** Why a merge stops. `JobFailed` stands for the exception raised after a job's
      result could not be obtained; it carries the job id and the errors the warehouse
      reported, whose number the message states. */
  datatype LoaderError =
    | NoColumnsToCheck
    | StagingSchemaUnavailable
    | JobFailed(stage: Stage, jobId: string, errors: seq<string>)

  /** The three job handles a completed merge returns. */
  datatype MergeJobs = MergeJobs(load: Job, merge: Job, delete: Job)

  /** The wall clock at each of the three submissions of a merge. */
  datatype StageClock = StageClock(load: DateTime, merge: DateTime, delete: DateTime)

  /** The first job of a merge: the DataFrame cut to `all_fields`, loaded into the staging
      table with the reconciled truncating configuration. */
  function StagingLoadJob(data: DataFrame, target: TableRef, prefix: string, now: DateTime,
                          fetched: Option<Schema>): Job
  {
    var config := LoadConfig(Parquet, CreateIfNeeded, WriteTruncate, None, None);
    Job(StageJobId(prefix, StagingLoad, now),
        Load(StagingTable(target), LoadedColumns(fetched, data), Reconciled(config, fetched, ColumnNames(data))))
  }

  /** The second job of a merge: the MERGE script from the staging table into `target`. */
  function MergeDataJob(target: TableRef, prefix: string, now: DateTime, keys: seq<string>,
                        updates: seq<string>, stagingSchema: Schema): Job
  {
    Job(StageJobId(prefix, MergeData, now), Query(MergeQuery(target, keys, updates, stagingSchema)))
  }

  /** The third job of a merge: dropping the staging table. */
  function DropJob(target: TableRef, prefix: string, now: DateTime): Job
  {
    Job(StageJobId(prefix, DeleteTempData, now), Query(DropQuery(target)))
  }

  /** `writeDfToBq`: builds the append configuration, reconciles the schema (a failed fetch
      is not an error) and submits one load of the whole DataFrame into the destination,
      without waiting for it. */
  method WriteDfToBq(data: DataFrame, projectId: string, datasetId: string, tableId: string,
                     jobIdPrefix: string, now: DateTime, warehouse: Warehouse)
    returns (loadJob: Job)
    ensures loadJob.id == AppendJobId(jobIdPrefix, now)
    ensures loadJob.request.Load?
    ensures loadJob.request.destination == TableRef(projectId, datasetId, tableId)
    ensures loadJob.request.columns == ColumnNames(data)
    ensures loadJob.request.config.sourceFormat == Parquet
    ensures loadJob.request.config.createDisposition == CreateIfNeeded
    ensures loadJob.request.config.writeDisposition == WriteAppend
    ensures FollowsFetchedSchema(loadJob.request.config, warehouse.destinationSchema, ColumnNames(data))
  {
    var table := TableRef(projectId, datasetId, tableId);
    var jobConfig := LoadConfig(Parquet, CreateIfNeeded, WriteAppend, None, None);
    var tableSchema;
    jobConfig, tableSchema := ReconcileSchema(jobConfig, warehouse.destinationSchema, ColumnNames(data));
    loadJob := Job(AppendJobId(jobIdPrefix, now), Load(table, ColumnNames(data), jobConfig));
  }

  /** The stage sequencing of a merge, whatever the jobs contain: nothing without key
      columns; otherwise the staging load, then the merge only if the load succeeded and
      the staging schema was read (`merge` is None when it was not), then the drop only if
      the merge succeeded. The first failure is the outcome; with none, the three jobs are. */
  function RunStages(hasKeys: bool, load: Job, merge: Option<Job>, drop: Job, warehouse: Warehouse)
    : (run: (Result<MergeJobs, LoaderError>, seq<Job>))
    ensures run.0.Success? <==>
      && hasKeys && warehouse.loadOutcome.Done? && merge.Some?
      && warehouse.mergeOutcome.Done? && warehouse.dropOutcome.Done?
    ensures run.0.Success? ==> run.1 == [run.0.value.load, run.0.value.merge, run.0.value.delete]
  {
    if !hasKeys then (Failure(NoColumnsToCheck), [])
    else if warehouse.loadOutcome.Failed? then
      (Failure(JobFailed(StagingLoad, load.id, warehouse.loadOutcome.errors)), [load])
    else if merge.None? then (Failure(StagingSchemaUnavailable), [load])
    else if warehouse.mergeOutcome.Failed? then
      (Failure(JobFailed(MergeData, merge.value.id, warehouse.mergeOutcome.errors)), [load, merge.value])
    else if warehouse.dropOutcome.Failed? then
      (Failure(JobFailed(DeleteTempData, drop.id, warehouse.dropOutcome.errors)), [load, merge.value, drop])
    else (Success(MergeJobs(load, merge.value, drop)), [load, merge.value, drop])
  }

  /** The merge job, once the staging table's schema has been read. */
  function PlannedMerge(data: DataFrame, table: TableRef, prefix: string, colsToCheck: seq<string>,
                        colsToUpdate: seq<string>, now: DateTime, warehouse: Warehouse): Option<Job>
  {
    match warehouse.stagingSchema
    case None => None
    case Some(stagingSchema) =>
      var keys := KeyColumns(data, colsToCheck);
      var updates := ExtendedUpdates(LoadedColumns(warehouse.destinationSchema, data), keys,
                                     UpdateColumns(data, colsToUpdate));
      Some(MergeDataJob(table, prefix, now, keys, updates, stagingSchema))
  }

  /** What `writeDfToBq_with_merging` submits and how it ends. */
  function MergeRun(data: DataFrame, table: TableRef, prefix: string, colsToCheck: seq<string>,
                    colsToUpdate: seq<string>, clock: StageClock, warehouse: Warehouse)
    : (run: (Result<MergeJobs, LoaderError>, seq<Job>))
    ensures run.0.Success? <==>
      && KeyColumns(data, colsToCheck) != [] && warehouse.loadOutcome.Done? && warehouse.stagingSchema.Some?
      && warehouse.mergeOutcome.Done? && warehouse.dropOutcome.Done?
    ensures run.0.Success? ==> run.0.value.delete == DropJob(table, prefix, clock.delete)
  {
    RunStages(KeyColumns(data, colsToCheck) != [],
              StagingLoadJob(data, table, prefix, clock.load, warehouse.destinationSchema),
              PlannedMerge(data, table, prefix, colsToCheck, colsToUpdate, clock.merge, warehouse),
              DropJob(table, prefix, clock.delete),
              warehouse)
  }

  /** `writeDfToBq_with_merging`: returns the outcome and the jobs submitted, in order,
      exactly as `MergeRun` describes them. */
  method WriteDfToBqWithMerging(data: DataFrame, projectId: string, datasetId: string, tableId: string,
                                jobIdPrefix: string, colsToCheck: seq<string>, colsToUpdate: seq<string>,
                                clock: StageClock, warehouse: Warehouse)
    returns (result: Result<MergeJobs, LoaderError>, submitted: seq<Job>)
    ensures (result, submitted)
         == MergeRun(data, TableRef(projectId, datasetId, tableId), jobIdPrefix, colsToCheck, colsToUpdate,
                     clock, warehouse)
  {
    submitted := [];
    var keys := KeyColumns(data, colsToCheck);
    if |keys| == 0 {
      result := Failure(NoColumnsToCheck);
      return;
    }
    var updates := UpdateColumns(data, colsToUpdate);
    var table := TableRef(projectId, datasetId, tableId);

    // Step 1: load into the staging table and wait.
    var loadJob, allFields := SubmitStagingLoad(data, table, jobIdPrefix, clock.load, warehouse.destinationSchema);
    submitted := [loadJob];
    if warehouse.loadOutcome.Failed? {
      result := Failure(JobFailed(StagingLoad, loadJob.id, warehouse.loadOutcome.errors));
      return;
    }

    // Step 2: merge the staging table into the destination and wait.
    if warehouse.stagingSchema.None? {
      result := Failure(StagingSchemaUnavailable);
      return;
    }
    var mergeJob := SubmitMerge(table, jobIdPrefix, clock.merge, keys, updates, allFields, warehouse.stagingSchema.value);
    submitted := [loadJob, mergeJob];
    if warehouse.mergeOutcome.Failed? {
      result := Failure(JobFailed(MergeData, mergeJob.id, warehouse.mergeOutcome.errors));
      return;
    }

    // Step 3: drop the staging table and wait.
    var deleteJob := DropJob(table, jobIdPrefix, clock.delete);
    submitted := [loadJob, mergeJob, deleteJob];
    if warehouse.dropOutcome.Failed? {
      result := Failure(JobFailed(DeleteTempData, deleteJob.id, warehouse.dropOutcome.errors));
      return;
    }
    result := Success(MergeJobs(loadJob, mergeJob, deleteJob));
  }

  /** Step 1 of a merge: the truncating configuration, schema handling against the
      destination, `all_fields`, and the staging load job. */
  method SubmitStagingLoad(data: DataFrame, table: TableRef, jobIdPrefix: string, now: DateTime,
                           fetched: Option<Schema>)
    returns (loadJob: Job, allFields: seq<string>)
    ensures loadJob == StagingLoadJob(data, table, jobIdPrefix, now, fetched)
    ensures allFields == LoadedColumns(fetched, data)
  {
    var tempTable := StagingTable(table);
    var jobConfig := LoadConfig(Parquet, CreateIfNeeded, WriteTruncate, None, None);
    var tableSchema;
    jobConfig, tableSchema := ReconcileSchema(jobConfig, fetched, ColumnNames(data));
    allFields := if tableSchema.Some? && tableSchema.value != [] then FieldNames(tableSchema.value)
                 else ColumnNames(data);
    LoadedColumnsOfReconciled(fetched, data, tableSchema);
    loadJob := Job(StageJobId(jobIdPrefix, StagingLoad, now), Load(tempTable, allFields, jobConfig));
  }

  /** Step 2 of a merge: the update columns extended with the unclassified loaded
      columns, the MERGE text built from the staging schema, and the merge job. */
  method SubmitMerge(table: TableRef, jobIdPrefix: string, now: DateTime, keys: seq<string>,
                     colsToUpdate: seq<string>, allFields: seq<string>, tempTableSchema: Schema)
    returns (mergeJob: Job)
    ensures mergeJob == MergeDataJob(table, jobIdPrefix, now, keys, ExtendedUpdates(allFields, keys, colsToUpdate),
                                     tempTableSchema)
  {
    var updates := colsToUpdate;
    updates := ExtendedUpdates(allFields, keys, updates);
    var mergeQuery := BuildMergeQuery(table, keys, updates, tempTableSchema);
    mergeJob := Job(StageJobId(jobIdPrefix, MergeData, now), Query(mergeQuery));
  }

  /** `all_fields`, computed from the schema the reconciliation returned, is `LoadedColumns`. */
  lemma LoadedColumnsOfReconciled(fetched: Option<Schema>, data: DataFrame, tableSchema: Option<Schema>)
    requires fetched.Some? ==> tableSchema == Some(Pruned(fetched.value, ColumnNames(data)))
    requires fetched.None? ==> tableSchema == None
    ensures LoadedColumns(fetched, data)
         == if tableSchema.Some? && tableSchema.value != [] then FieldNames(tableSchema.value) else ColumnNames(data)
  {
  }

  /** The staging load writes into the staging table, never the destination, replacing
      its contents and creating it when missing; it declares the pruned destination
      schema or asks for detection; and it loads only DataFrame columns. */
  lemma StagingLoadJobProperties(data: DataFrame, table: TableRef, prefix: string, now: DateTime,
                                 fetched: Option<Schema>)
    ensures var job := StagingLoadJob(data, table, prefix, now, fetched);
      && job.request.Load?
      && job.request.destination == StagingTable(table)
      && Path(job.request.destination) != Path(table)
      && job.request.config.sourceFormat == Parquet
      && job.request.config.createDisposition == CreateIfNeeded
      && job.request.config.writeDisposition == WriteTruncate
      && FollowsFetchedSchema(job.request.config, fetched, ColumnNames(data))
      && (forall c :: c in job.request.columns ==> c in ColumnNames(data))
  {
    ReconciledFollowsFetch(LoadConfig(Parquet, CreateIfNeeded, WriteTruncate, None, None), fetched, ColumnNames(data));
  }

  /** The stages run strictly in order: each is submitted exactly when every earlier one
      succeeded, the jobs appear in submission order, and the merge succeeds as a whole
      exactly when all three jobs did. */
  lemma StagesRunInOrder(hasKeys: bool, load: Job, merge: Option<Job>, drop: Job, warehouse: Warehouse)
    ensures var run := RunStages(hasKeys, load, merge, drop, warehouse);
      && |run.1| <= 3
      && (|run.1| >= 1 <==> hasKeys)
      && (|run.1| >= 2 <==> |run.1| >= 1 && warehouse.loadOutcome.Done? && merge.Some?)
      && (|run.1| == 3 <==> |run.1| >= 2 && warehouse.mergeOutcome.Done?)
      && (|run.1| >= 1 ==> run.1[0] == load)
      && (|run.1| >= 2 ==> run.1[1] == merge.value)
      && (|run.1| == 3 ==> run.1[2] == drop)
      && (run.0.Success? <==> |run.1| == 3 && warehouse.dropOutcome.Done?)
      && (run.0.Success? ==> run.0.value == MergeJobs(load, merge.value, drop))
  {
  }

  /** The outcome names the first stage that failed, with that job's id and errors;
      a stage that failed is the last one submitted. */
  lemma FirstFailureIsReported(hasKeys: bool, load: Job, merge: Option<Job>, drop: Job, warehouse: Warehouse)
    requires hasKeys
    ensures var run := RunStages(hasKeys, load, merge, drop, warehouse);
      && (warehouse.loadOutcome.Failed? ==>
            run == (Failure(JobFailed(StagingLoad, load.id, warehouse.loadOutcome.errors)), [load]))
      && (warehouse.loadOutcome.Done? && merge.None? ==> run == (Failure(StagingSchemaUnavailable), [load]))
      && (warehouse.loadOutcome.Done? && merge.Some? && warehouse.mergeOutcome.Failed? ==>
            run == (Failure(JobFailed(MergeData, merge.value.id, warehouse.mergeOutcome.errors)), [load, merge.value]))
      && (warehouse.loadOutcome.Done? && merge.Some? && warehouse.mergeOutcome.Done? && warehouse.dropOutcome.Failed? ==>
            run == (Failure(JobFailed(DeleteTempData, drop.id, warehouse.dropOutcome.errors)), [load, merge.value, drop]))
  {
  }

  /** Jobs with distinct ids make a run whose submitted jobs have distinct ids. */
  lemma RunStagesIdsDistinct(hasKeys: bool, load: Job, merge: Option<Job>, drop: Job, warehouse: Warehouse)
    requires merge.Some? ==> load.id != merge.value.id && merge.value.id != drop.id
    requires load.id != drop.id
    ensures var trace := RunStages(hasKeys, load, merge, drop, warehouse).1;
      forall i, j :: 0 <= i < j < |trace| ==> trace[i].id != trace[j].id
  {
    StagesRunInOrder(hasKeys, load, merge, drop, warehouse);
  }

  /** The third job of a merge drops the staging table and never the destination. */
  lemma DropJobTargetsStaging(table: TableRef, prefix: string, now: DateTime)
    ensures var job := DropJob(table, prefix, now);
      && job.id == StageJobId(prefix, DeleteTempData, now)
      && job.request == Query("DROP TABLE `" + Path(table) + "_temptable`;")
      && job.request != Query("DROP TABLE `" + Path(table) + "`;")
  {
    DropQueryTargetsStaging(table);
  }

  /** Without key columns the merge fails before any job, and that failure is the only
      one that submits nothing. */
  lemma NoKeysNoJobs(data: DataFrame, table: TableRef, prefix: string, colsToCheck: seq<string>,
                     colsToUpdate: seq<string>, clock: StageClock, warehouse: Warehouse)
    ensures var run := MergeRun(data, table, prefix, colsToCheck, colsToUpdate, clock, warehouse);
      && (run.0 == Failure(NoColumnsToCheck) <==> run.1 == [])
      && (run.1 == [] <==> colsToCheck == [] && forall col :: col in data ==> col.numeric)
  {
    var keys := KeyColumns(data, colsToCheck);
    var load := StagingLoadJob(data, table, prefix, clock.load, warehouse.destinationSchema);
    var merge := PlannedMerge(data, table, prefix, colsToCheck, colsToUpdate, clock.merge, warehouse);
    StagesRunInOrder(keys != [], load, merge, DropJob(table, prefix, clock.delete), warehouse);
  }

  /** A failed staging load ends the merge with the load's errors, and no query at all —
      neither the merge nor the drop — is submitted. */
  lemma LoadFailureSubmitsNoQuery(data: DataFrame, table: TableRef, prefix: string, colsToCheck: seq<string>,
                                  colsToUpdate: seq<string>, clock: StageClock, warehouse: Warehouse)
    requires KeyColumns(data, colsToCheck) != [] && warehouse.loadOutcome.Failed?
    ensures var run := MergeRun(data, table, prefix, colsToCheck, colsToUpdate, clock, warehouse);
      && run.0 == Failure(JobFailed(StagingLoad, StageJobId(prefix, StagingLoad, clock.load), warehouse.loadOutcome.errors))
      && forall job :: job in run.1 ==> job.request.Load?
  {
    var load := StagingLoadJob(data, table, prefix, clock.load, warehouse.destinationSchema);
    var merge := PlannedMerge(data, table, prefix, colsToCheck, colsToUpdate, clock.merge, warehouse);
    FirstFailureIsReported(true, load, merge, DropJob(table, prefix, clock.delete), warehouse);
  }

  /** The planned merge job never runs the drop statement. */
  lemma PlannedMergeIsNotDrop(data: DataFrame, table: TableRef, prefix: string, colsToCheck: seq<string>,
                              colsToUpdate: seq<string>, now: DateTime, warehouse: Warehouse)
    requires warehouse.stagingSchema.Some?
    ensures var merge := PlannedMerge(data, table, prefix, colsToCheck, colsToUpdate, now, warehouse);
      merge.Some? && merge.value.request != Query(DropQuery(table))
  {
    var keys := KeyColumns(data, colsToCheck);
    var updates := ExtendedUpdates(LoadedColumns(warehouse.destinationSchema, data), keys,
                                   UpdateColumns(data, colsToUpdate));
    MergeQueryIsNotDrop(table, keys, updates, warehouse.stagingSchema.value, table);
  }

  /** A failed merge ends the run with the merge's errors and leaves the staging table
      in place: the drop is never submitted. */
  lemma MergeFailureKeepsStaging(data: DataFrame, table: TableRef, prefix: string, colsToCheck: seq<string>,
                                 colsToUpdate: seq<string>, clock: StageClock, warehouse: Warehouse)
    requires KeyColumns(data, colsToCheck) != [] && warehouse.loadOutcome.Done? && warehouse.stagingSchema.Some?
    requires warehouse.mergeOutcome.Failed?
    ensures var run := MergeRun(data, table, prefix, colsToCheck, colsToUpdate, clock, warehouse);
      && run.0 == Failure(JobFailed(MergeData, StageJobId(prefix, MergeData, clock.merge), warehouse.mergeOutcome.errors))
      && forall job :: job in run.1 ==> job.request != Query(DropQuery(table))
  {
    var load := StagingLoadJob(data, table, prefix, clock.load, warehouse.destinationSchema);
    var merge := PlannedMerge(data, table, prefix, colsToCheck, colsToUpdate, clock.merge, warehouse);
    PlannedMergeIsNotDrop(data, table, prefix, colsToCheck, colsToUpdate, clock.merge, warehouse);
    FailedMergeNeverDrops(load, merge, DropJob(table, prefix, clock.delete), warehouse);
  }

  /** When the merge fails, the run ends there: nothing submitted asks for what the drop
      would have asked, unless an earlier job did. */
  lemma FailedMergeNeverDrops(load: Job, merge: Option<Job>, drop: Job, warehouse: Warehouse)
    requires warehouse.loadOutcome.Done? && merge.Some? && warehouse.mergeOutcome.Failed?
    requires load.request != drop.request && merge.value.request != drop.request
    ensures var run := RunStages(true, load, merge, drop, warehouse);
      && run.0 == Failure(JobFailed(MergeData, merge.value.id, warehouse.mergeOutcome.errors))
      && forall job :: job in run.1 ==> job.request != drop.request
  {
    assert RunStages(true, load, merge, drop, warehouse).1 == [load, merge.value];
  }

  /** A failed drop is reported after the merge job already succeeded: the run holds
      all three jobs and names the drop's errors, so it cannot be mistaken for a failed
      merge. */
  lemma DropFailureAfterMerge(data: DataFrame, table: TableRef, prefix: string, colsToCheck: seq<string>,
                              colsToUpdate: seq<string>, clock: StageClock, warehouse: Warehouse)
    requires KeyColumns(data, colsToCheck) != [] && warehouse.loadOutcome.Done? && warehouse.stagingSchema.Some?
    requires warehouse.mergeOutcome.Done? && warehouse.dropOutcome.Failed?
    ensures var run := MergeRun(data, table, prefix, colsToCheck, colsToUpdate, clock, warehouse);
      && |run.1| == 3
      && run.1[1].id == StageJobId(prefix, MergeData, clock.merge)
      && run.0 == Failure(JobFailed(DeleteTempData, StageJobId(prefix, DeleteTempData, clock.delete),
                                    warehouse.dropOutcome.errors))
  {
    var load := StagingLoadJob(data, table, prefix, clock.load, warehouse.destinationSchema);
    var merge := PlannedMerge(data, table, prefix, colsToCheck, colsToUpdate, clock.merge, warehouse);
    FirstFailureIsReported(true, load, merge, DropJob(table, prefix, clock.delete), warehouse);
  }

  /** The jobs of one run have pairwise distinct ids, whatever the clock read. */
  lemma RunJobIdsDistinct(data: DataFrame, table: TableRef, prefix: string, colsToCheck: seq<string>,
                          colsToUpdate: seq<string>, clock: StageClock, warehouse: Warehouse)
    ensures var trace := MergeRun(data, table, prefix, colsToCheck, colsToUpdate, clock, warehouse).1;
      forall i, j :: 0 <= i < j < |trace| ==> trace[i].id != trace[j].id
  {
    var load := StagingLoadJob(data, table, prefix, clock.load, warehouse.destinationSchema);
    var merge := PlannedMerge(data, table, prefix, colsToCheck, colsToUpdate, clock.merge, warehouse);
    var drop := DropJob(table, prefix, clock.delete);
    JobIdsDistinct(prefix, StagingLoad, clock.load, MergeData, clock.merge, clock.load);
    JobIdsDistinct(prefix, StagingLoad, clock.load, DeleteTempData, clock.delete, clock.load);
    JobIdsDistinct(prefix, MergeData, clock.merge, DeleteTempData, clock.delete, clock.load);
    RunStagesIdsDistinct(KeyColumns(data, colsToCheck) != [], load, merge, drop, warehouse);
  }
}
