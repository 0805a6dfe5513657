/** The records planning and execution exchange: bindings, subplans, stages, physical plans. */
module Plans {
  import opened Prelude
  import opened Dag
  import opened Sql
  import opened Projection

  datatype FreshnessPolicy = RevisionPolicy | VolatilePolicy | UnknownPolicy

  datatype Freshness = Freshness(policy: FreshnessPolicy, freshnessKey: Option<string>)

  // `identity` stands for the descriptive fields of a dataset that take part in a cache key
  // (dataset id and name, reference, materialization mode, revision id, reason). The entries
  // `physical_*` of the metadata may be absent, or present without a value.
  datatype Binding = Binding(
    tableKey: string, sourceId: string, connectorId: Option<string>,
    catalog: Option<string>, schema: Option<string>, table: string,
    physicalCatalog: Option<Option<string>>, physicalSchema: Option<Option<string>>,
    physicalTable: Option<Option<string>>,
    physicalSql: string, skipCatalog: bool, datasetAlias: Option<string>,
    identity: string, freshness: Option<Freshness>, explicitKey: Option<string>)

  datatype TableRef = TableRef(
    alias: string, tableKey: string, sourceId: string, connectorId: Option<string>,
    schema: Option<string>, table: string, catalog: Option<string>)

  /** `_table_ref` */
  function RefOf(alias: string, b: Binding): TableRef {
    TableRef(alias, b.tableKey, b.sourceId, b.connectorId, b.schema, b.table, b.catalog)
  }

  datatype ScanSource = Subquery(text: string) | Physical(catalog: string, schema: string, table: string)

  datatype SourceSql =
    | ScanSql(source: ScanSource, alias: string, proj: Proj, filters: seq<Expr>)
    | FullSql(query: Query)

  datatype Subplan = Subplan(stageId: StageId, sourceId: string, alias: string, tableKey: string, sql: SourceSql)

  datatype StageKind = RemoteScan | RemoteFullQuery | LocalCompute

  datatype StageDef = StageDef(
    id: StageId, kind: StageKind, deps: seq<StageId>, sourceId: string,
    subplan: Option<Subplan>, sql: Option<Query>, dialect: string, retryLimit: int,
    inputs: map<string, StageId>)

  datatype PhysicalPlan = PhysicalPlan(stages: seq<StageDef>, tables: seq<TableRef>, resultStage: StageId)
}
