/** Shared domain values: internal/model/model.go. */
module Model {
  import opened Text

  /** Operator-facing name of the built-in server, which Dokploy stores as NULL. */
  const LOCAL_SERVER_ID := "__dokploy_local__"

  datatype PlanRow = PlanRow(
    table: string,
    idColumn: string,
    id: string,
    name: string,
    oldServerID: string,
    newServerID: string)

  datatype MigrationPlan = MigrationPlan(
    id: string,
    sourceServerID: string,
    targetServerID: string,
    createdAt: string,
    schemaHash: string,
    rows: seq<PlanRow>)

  datatype Resource = Resource(
    id: string,
    idColumn: string,
    name: string,
    kind: string,
    serverID: string)

  /** Every row of the plan goes from the plan's source to the plan's target. */
  predicate RowsFollowHeader(plan: MigrationPlan) {
    forall row <- plan.rows ::
      row.oldServerID == plan.sourceServerID && row.newServerID == plan.targetServerID
  }
}
