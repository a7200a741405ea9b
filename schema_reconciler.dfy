/** Schema handling shared by both loaders: the live schema of the destination table,
    when it can be fetched, is cut down to the DataFrame's columns and declared
    explicitly; when it cannot, the warehouse is asked to detect the schema. */
module SchemaReconciler {
  import opened Wrappers
  import opened Seqs
  import opened Tables

  /** Whether a field's name is one of the DataFrame's columns. */
  function NamedIn(columns: seq<string>): Field -> bool
  {
    (f: Field) => f.name in columns
  }

  /** Whether a field's name is none of the DataFrame's columns. */
  function NotNamedIn(columns: seq<string>): Field -> bool
  {
    (f: Field) => f.name !in columns
  }

  /** The live-schema fields whose name is a DataFrame column, in schema order. */
  function Pruned(schema: Schema, columns: seq<string>): (kept: Schema)
    ensures forall f :: f in kept <==> f in schema && f.name in columns
    ensures IsSubsequence(kept, schema)
  {
    Filter(NamedIn(columns), schema)
  }

  /** `fields_to_remove`: the live-schema fields whose name is not a DataFrame column. */
  function FieldsToRemove(schema: Schema, columns: seq<string>): (unwanted: Schema)
    ensures forall f :: f in unwanted <==> f in schema && f.name !in columns
  {
    Filter(NotNamedIn(columns), schema)
  }

  /** The pruning loop: collect `fields_to_remove`, then `table_schema.remove(field)` for
      each of them. What is left is exactly `Pruned`, in schema order. */
  method PruneSchema(tableSchema: Schema, columns: seq<string>) returns (kept: Schema)
    ensures kept == Pruned(tableSchema, columns)
  {
    var wanted := Pruned(tableSchema, columns);
    var fieldsToRemove := FieldsToRemove(tableSchema, columns);
    FilterPartition(NamedIn(columns), NotNamedIn(columns), tableSchema);
    kept := tableSchema;
    for i := 0 to |fieldsToRemove|
      invariant multiset(kept) == multiset(wanted) + multiset(fieldsToRemove[i..])
      invariant Pruned(kept, columns) == wanted
    {
      var field := fieldsToRemove[i];
      assert field in fieldsToRemove;
      RemoveUnwanted(kept, columns, wanted, fieldsToRemove[i..]);
      assert fieldsToRemove[i..][1..] == fieldsToRemove[i + 1..];
      kept := RemoveFirst(kept, field);
    }
    assert fieldsToRemove[|fieldsToRemove|..] == [];
    OnlyWantedLeft(kept, columns, wanted);
  }

  /** When the loop ends, every remaining field is a wanted one, so nothing else is left. */
  lemma OnlyWantedLeft(kept: Schema, columns: seq<string>, wanted: Schema)
    requires multiset(kept) == multiset(wanted)
    requires Pruned(kept, columns) == wanted
    ensures kept == wanted
  {
    forall f | f in kept ensures NamedIn(columns)(f) {
      assert f in multiset(wanted);
    }
    FilterKeepsAll(NamedIn(columns), kept);
  }

  /** One turn of the pruning loop: the field about to be removed is still there, and
      removing it takes it out of the pending fields without touching the wanted ones. */
  lemma RemoveUnwanted(kept: Schema, columns: seq<string>, wanted: Schema, pending: Schema)
    requires pending != []
    requires multiset(kept) == multiset(wanted) + multiset(pending)
    requires Pruned(kept, columns) == wanted
    requires pending[0].name !in columns
    ensures pending[0] in kept
    ensures multiset(RemoveFirst(kept, pending[0])) == multiset(wanted) + multiset(pending[1..])
    ensures Pruned(RemoveFirst(kept, pending[0]), columns) == wanted
  {
    var field := pending[0];
    assert multiset(pending) == multiset{field} + multiset(pending[1..]) by {
      assert pending == [field] + pending[1..];
    }
    assert field in multiset(kept);
    assert multiset(RemoveFirst(kept, field)) == multiset(wanted) + multiset(pending[1..]) by {
      assert multiset(RemoveFirst(kept, field)) == multiset(kept) - multiset{field};
    }
    FilterRemoveFirst(NamedIn(columns), kept, field);
  }

  /** The configuration after schema handling: with a fetched schema, the pruned schema
      declared and detection off; without one, detection on. */
  function Reconciled(config: LoadConfig, fetched: Option<Schema>, columns: seq<string>): (updated: LoadConfig)
    ensures updated.sourceFormat == config.sourceFormat
    ensures updated.createDisposition == config.createDisposition
    ensures updated.writeDisposition == config.writeDisposition
    ensures updated.autodetect == Some(fetched.None?)
    ensures fetched.Some? ==> updated.schema == Some(Pruned(fetched.value, columns))
    ensures fetched.None? ==> updated.schema == config.schema
  {
    match fetched
    case Some(liveSchema) => config.(schema := Some(Pruned(liveSchema, columns)), autodetect := Some(false))
    case None => config.(autodetect := Some(true))
  }

  /** A load configuration that follows the outcome of the schema fetch: the pruned live
      schema with detection off, or no schema with detection on. */
  predicate FollowsFetchedSchema(config: LoadConfig, fetched: Option<Schema>, columns: seq<string>)
  {
    && (fetched.Some? ==> config.schema == Some(Pruned(fetched.value, columns)) && config.autodetect == Some(false))
    && (fetched.None? ==> config.schema.None? && config.autodetect == Some(true))
  }

  /** Schema handling keeps the format and both dispositions, and the declared schema
      and detection flag follow the fetch: never a partial schema with detection on,
      never detection off without a schema. */
  lemma ReconciledFollowsFetch(config: LoadConfig, fetched: Option<Schema>, columns: seq<string>)
    requires config.schema.None?
    ensures var updated := Reconciled(config, fetched, columns);
      && updated.sourceFormat == config.sourceFormat
      && updated.createDisposition == config.createDisposition
      && updated.writeDisposition == config.writeDisposition
      && FollowsFetchedSchema(updated, fetched, columns)
      && (updated.autodetect == Some(true) <==> updated.schema.None?)
  {
  }

  /** The `try`/`except` around `get_table`: with a fetched schema the configuration
      declares the pruned schema and turns detection off, and the pruned schema is
      returned as `table_schema`; when the fetch raised, detection is turned on, nothing
      else changes, and `table_schema` stays None. The failure never propagates. */
  method ReconcileSchema(config: LoadConfig, fetched: Option<Schema>, columns: seq<string>)
    returns (updated: LoadConfig, tableSchema: Option<Schema>)
    ensures updated == Reconciled(config, fetched, columns)
    ensures fetched.Some? ==>
      && tableSchema == Some(Pruned(fetched.value, columns))
      && updated == config.(schema := tableSchema, autodetect := Some(false))
    ensures fetched.None? ==>
      && tableSchema == None
      && updated == config.(autodetect := Some(true))
  {
    updated := config;
    tableSchema := None;
    match fetched {
      case Some(liveSchema) =>
        var pruned := PruneSchema(liveSchema, columns);
        tableSchema := Some(pruned);
        updated := updated.(schema := tableSchema);
        updated := updated.(autodetect := Some(false));
      case None =>
        updated := updated.(autodetect := Some(true));
    }
  }

  /** The merge loader's schema handling as written: after the schema is declared and
      detection turned off, `job_config.job_retry = None` sets a property that a load
      configuration does not have, the client library refuses it, and the bare `except`
      turns detection back on while the pruned schema stays declared. */
  function ReconciledAsWritten(config: LoadConfig, fetched: Option<Schema>, columns: seq<string>)
    : (updated: LoadConfig)
    ensures updated.autodetect == Some(true)
    ensures updated.schema == if fetched.Some? then Some(Pruned(fetched.value, columns)) else config.schema
  {
    match fetched
    case Some(liveSchema) => config.(schema := Some(Pruned(liveSchema, columns)), autodetect := Some(true))
    case None => config.(autodetect := Some(true))
  }

  /** The `try`/`except` at the merge loader step by step, with the refused `job_retry`
      write sending every successful fetch into the `except`. `table_schema` is still the
      pruned schema. */
  method ReconcileSchemaAsWritten(config: LoadConfig, fetched: Option<Schema>, columns: seq<string>)
    returns (updated: LoadConfig, tableSchema: Option<Schema>)
    ensures updated == ReconciledAsWritten(config, fetched, columns)
    ensures tableSchema == if fetched.Some? then Some(Pruned(fetched.value, columns)) else None
  {
    updated := config;
    tableSchema := None;
    match fetched {
      case Some(liveSchema) =>
        var pruned := PruneSchema(liveSchema, columns);
        tableSchema := Some(pruned);
        updated := updated.(schema := tableSchema);
        updated := updated.(autodetect := Some(false));
        // `job_config.job_retry = None` raises here; the `except` runs.
        updated := updated.(autodetect := Some(true));
      case None =>
        updated := updated.(autodetect := Some(true));
    }
  }

  /** As written, a fetched schema is declared and detection is nevertheless on, so the
      configuration does not follow the fetch; the intended `Reconciled` does. */
  lemma RetryWriteKeepsDetectionOn(config: LoadConfig, liveSchema: Schema, columns: seq<string>)
    requires config.schema.None?
    ensures var written := ReconciledAsWritten(config, Some(liveSchema), columns);
      && written.schema == Some(Pruned(liveSchema, columns))
      && written.autodetect == Some(true)
      && !FollowsFetchedSchema(written, Some(liveSchema), columns)
      && FollowsFetchedSchema(Reconciled(config, Some(liveSchema), columns), Some(liveSchema), columns)
  {
    ReconciledFollowsFetch(config, Some(liveSchema), columns);
  }

  /** `all_fields`: the columns loaded into the staging table. The names of the pruned
      schema when it has at least one field, otherwise every DataFrame column. Either
      way each of them is a DataFrame column, so the projection `data.loc[:, all_fields]`
      always succeeds. */
  function LoadedColumns(fetched: Option<Schema>, data: DataFrame): (allFields: seq<string>)
    ensures forall c :: c in allFields ==> c in ColumnNames(data)
    ensures fetched.Some? && Pruned(fetched.value, ColumnNames(data)) != [] ==>
      allFields == FieldNames(Pruned(fetched.value, ColumnNames(data)))
    ensures fetched.None? || Pruned(fetched.value, ColumnNames(data)) == [] ==>
      allFields == ColumnNames(data)
  {
    var tableSchema := if fetched.Some? then Some(Pruned(fetched.value, ColumnNames(data))) else None;
    if tableSchema.Some? && tableSchema.value != [] then
      var names := FieldNames(tableSchema.value);
      assert forall c :: c in names ==> c in ColumnNames(data) by {
        forall c | c in names ensures c in ColumnNames(data) {
          var i :| 0 <= i < |names| && names[i] == c;
          assert tableSchema.value[i] in tableSchema.value;
        }
      }
      names
    else ColumnNames(data)
  }
}
