/** Worked examples of the loaders' behaviour on concrete inputs. */
module Scenarios {
  import opened Wrappers
  import opened Seqs
  import opened Text
  import opened Tables
  import opened JobIds
  import opened SchemaReconciler
  import opened Columns
  import opened MergeStatement
  import opened Loaders

  /** A DataFrame with two text columns and one float column. */
  const IdRegionAmount: DataFrame := [Column("id", false), Column("region", false), Column("amount", true)]

  /** The staging table's schema after loading it: no REPEATED field. */
  const FlatStagingSchema: Schema :=
    [Field("id", "STRING", Nullable), Field("region", "STRING", Nullable), Field("amount", "FLOAT", Nullable)]

  /** With no columns given, the text columns `id` and `region` are the keys and the
      float column `amount` is updated. */
  lemma DefaultColumnsScenario()
    ensures KeyColumns(IdRegionAmount, []) == ["id", "region"]
    ensures UpdateColumns(IdRegionAmount, []) == ["amount"]
  {
    var id, region, amount := IdRegionAmount[0], IdRegionAmount[1], IdRegionAmount[2];
    assert IdRegionAmount == [id] + ([region] + ([amount] + []));
    FilterCons(IsText, amount, []);
    FilterCons(IsText, region, [amount]);
    FilterCons(IsText, id, [region, amount]);
    FilterCons(IsNumeric, amount, []);
    FilterCons(IsNumeric, region, [amount]);
    FilterCons(IsNumeric, id, [region, amount]);
  }

  /** Without REPEATED staging fields the match columns are exactly the keys. */
  lemma FlatMatchColumnsScenario()
    ensures MatchColumns(["id", "region"], FlatStagingSchema) == ["id", "region"]
  {
    FilterRejectsAll(IsRepeated, FlatStagingSchema);
    assert RepeatedFields(FlatStagingSchema) == [];
    FilterRejectsAll(NotIn(["id", "region"]), []);
  }

  /** ...so the `ON` clause compares `id`, then `region`. */
  lemma OnClauseScenario()
    ensures OnClause(["id", "region"], FlatStagingSchema)
         == "target.id = source.id" + "\nAND " + "target.region = source.region"
  {
    FlatMatchColumnsScenario();
    var eqs := Equalities(["id", "region"]);
    assert eqs == [Equality("id"), Equality("region")];
    assert Join("\nAND ", eqs) == Equality("id") + "\nAND " + Equality("region") by {
      assert eqs[1..] == [Equality("region")];
    }
    KeyEqualitiesScenario();
  }

  /** The equalities of the two keys, as text. */
  lemma KeyEqualitiesScenario()
    ensures Equality("id") == "target.id = source.id"
    ensures Equality("region") == "target.region = source.region"
  {
  }

  /** Every loaded column is a key or `amount`, so nothing is appended to the update
      columns and the `SET` list assigns `amount` alone. */
  lemma SetListScenario()
    ensures ExtendedUpdates(ColumnNames(IdRegionAmount), ["id", "region"], ["amount"]) == ["amount"]
    ensures SetList(["amount"]) == "target.amount = source.amount"
  {
    var names := ColumnNames(IdRegionAmount);
    assert names == ["id", "region", "amount"];
    FilterRejectsAll(NotIn(["id", "region"] + ["amount"]), names);
    AmountEqualityScenario();
  }

  /** The single `SET` assignment, as text. */
  lemma AmountEqualityScenario()
    ensures SetList(["amount"]) == "target.amount = source.amount"
  {
    assert Equalities(["amount"]) == [Equality("amount")];
  }

  /** Pruning a live schema `{a, b, c}` to the columns `{a, c}` drops `b` and keeps the
      order of the others. */
  lemma PruneScenario()
    ensures var a, b, c := Field("a", "STRING", Nullable), Field("b", "INTEGER", Nullable), Field("c", "FLOAT", Required);
      Pruned([a, b, c], ["a", "c"]) == [a, c]
  {
    var a, b, c := Field("a", "STRING", Nullable), Field("b", "INTEGER", Nullable), Field("c", "FLOAT", Required);
    var keep := NamedIn(["a", "c"]);
    assert keep(a) && keep(c) by {
      assert "a" == ["a", "c"][0] && "c" == ["a", "c"][1];
    }
    assert !keep(b) by {
      assert "b"[0] != "a"[0] && "b"[0] != "c"[0];
    }
    assert [c] == [c] + [] && [b, c] == [b] + [c] && [a, b, c] == [a] + [b, c];
    FilterCons(keep, c, []);
    FilterCons(keep, b, [c]);
    FilterCons(keep, a, [b, c]);
  }

  /** A live schema `{a, b, c}` against columns `{a, c}` is declared as exactly `{a, c}`
      with detection off; without a live schema detection is on and no schema is declared. */
  lemma ReconcileScenario(config: LoadConfig)
    requires config.schema.None?
    ensures var a, b, c := Field("a", "STRING", Nullable), Field("b", "INTEGER", Nullable), Field("c", "FLOAT", Required);
      && Reconciled(config, Some([a, b, c]), ["a", "c"]).schema == Some([a, c])
      && Reconciled(config, Some([a, b, c]), ["a", "c"]).autodetect == Some(false)
      && Reconciled(config, None, ["a", "c"]).schema == None
      && Reconciled(config, None, ["a", "c"]).autodetect == Some(true)
  {
    PruneScenario();
  }

  /** The staging load succeeds and the merge fails with one error: the run reports a
      merge failure carrying that one error, and no drop is submitted, so the staging
      table is left in place. */
  lemma MergeFailureScenario(table: TableRef, prefix: string, clock: StageClock)
    ensures var warehouse := Warehouse(None, Some(FlatStagingSchema), Done, Failed(["Syntax error"]), Done);
      var run := MergeRun(IdRegionAmount, table, prefix, [], [], clock, warehouse);
      && run.0.Failure?
      && run.0.error.JobFailed?
      && run.0.error.stage == MergeData
      && |run.0.error.errors| == 1
      && |run.1| == 2
      && forall job :: job in run.1 ==> job.request != Query(DropQuery(table))
  {
    var warehouse := Warehouse(None, Some(FlatStagingSchema), Done, Failed(["Syntax error"]), Done);
    DefaultColumnsScenario();
    MergeFailureKeepsStaging(IdRegionAmount, table, prefix, [], [], clock, warehouse);
    StagesRunInOrder(true, StagingLoadJob(IdRegionAmount, table, prefix, clock.load, None),
                     PlannedMerge(IdRegionAmount, table, prefix, [], [], clock.merge, warehouse),
                     DropJob(table, prefix, clock.delete), warehouse);
  }
}
