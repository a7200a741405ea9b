/** The values the loaders work with: the DataFrame (only its column names and whether
    each column is numeric), table references, schema fields, load configurations,
    the jobs submitted to the warehouse, and the warehouse's replies. */
module Tables {
  import opened Wrappers
  import opened Seqs

  /** BigQuery field modes. */
  datatype Mode = Nullable | Required | Repeated

  /** A `SchemaField`: its name, its type name and its mode. Two fields are equal when
      all three are, which is what `list.remove` compares. */
  datatype Field = Field(name: string, fieldType: string, mode: Mode)

  type Schema = seq<Field>

  /** A DataFrame column; `numeric` is what `select_dtypes(include=['float','int'])` selects. */
  datatype Column = Column(name: string, numeric: bool)

  type DataFrame = seq<Column>

  function ColumnName(col: Column): string
  {
    col.name
  }

  function FieldName(f: Field): string
  {
    f.name
  }

  /** `data.columns`. */
  function ColumnNames(data: DataFrame): seq<string>
  {
    Map(ColumnName, data)
  }

  /** `[field.name for field in schema]`. */
  function FieldNames(schema: Schema): seq<string>
  {
    Map(FieldName, schema)
  }

  /** A table `project.dataset.table`. */
  datatype TableRef = TableRef(project: string, dataset: string, table: string)

  /** The dotted path `project.dataset.table` the source interpolates into job targets and SQL. */
  function Path(t: TableRef): string
  {
    t.project + "." + t.dataset + "." + t.table
  }

  /** The staging table of a merge into `t`: same project and dataset, table `<table>_temptable`. */
  function StagingTable(t: TableRef): (s: TableRef)
    ensures s.project == t.project && s.dataset == t.dataset
    ensures s.table == t.table + "_temptable"
    ensures Path(s) == Path(t) + "_temptable" && Path(s) != Path(t)
  {
    var s := t.(table := t.table + "_temptable");
    assert Path(s) == Path(t) + "_temptable";
    assert |Path(s)| > |Path(t)|;
    s
  }

  datatype SourceFormat = Parquet
  datatype CreateDisposition = CreateIfNeeded | CreateNever
  datatype WriteDisposition = WriteAppend | WriteTruncate | WriteEmpty

  /** The fields of a `LoadJobConfig` the loaders set. `schema` and `autodetect` are
      None while never assigned. */
  datatype LoadConfig = LoadConfig(
    sourceFormat: SourceFormat,
    createDisposition: CreateDisposition,
    writeDisposition: WriteDisposition,
    schema: Option<Schema>,
    autodetect: Option<bool>)

  /** What a job asks the warehouse to do: load the listed DataFrame columns into a
      table, or run a SQL script. */
  datatype Request =
    | Load(destination: TableRef, columns: seq<string>, config: LoadConfig)
    | Query(sql: string)

  /** A submitted job: its id and its request. */
  datatype Job = Job(id: string, request: Request)

  /** How a job ends when its result is awaited: done, or failed with the errors the
      warehouse reports for it (`job.errors`). */
  datatype Outcome = Done | Failed(errors: seq<string>)

  /** The warehouse as the loaders see it: what `get_table(...).schema` gives for the
      destination and for the staging table (None when the call raises), and how each
      of the three jobs of a merge ends. */
  datatype Warehouse = Warehouse(
    destinationSchema: Option<Schema>,
    stagingSchema: Option<Schema>,
    loadOutcome: Outcome,
    mergeOutcome: Outcome,
    dropOutcome: Outcome)
}
