/** What the GUI's event coordinator is told about changes, and the limits it keeps. */
module EventScopes {
  const CONCURRENCY := 4
  const NORMAL_CONCURRENCY := 3
  const DIRTY_KEYS := 512
  const INTERVAL_MS := 250

  /** What an invalidation names: one operation, or a category of resources. */
  datatype Scope =
    | OperationOf(id: string)
    | Projects | Operations | Repositories | UserPackages | Templates | Unity | Extensions | Backups
    | OperationLog | OperationProgress | OperationsResync
    | Other(name: string)

  /** A change that was announced, and when. */
  datatype Invalidation = Invalidation(tick: nat, scope: Scope)
}
