/** Option, Result and the error values the Go code returns. Each Go
    `fmt.Errorf` of the modelled core is one constructor of `Error`, so a
    contract can say which error a call fails with. */
module Wrappers {

  datatype Option<+T> = None | Some(value: T)

  /** The error values of the core, named after the Go messages. */
  datatype Error =
    // store
    | InsightNotFound(id: string)
    | ThreadNotFound(id: string)
    | InsertInsightFailed(violation: Constraint)
    | InsertThreadFailed(violation: Constraint)
    | UpdateInsightFailed(violation: Constraint)
    | DependencyExists(from: string, to: string, kind: string)
    | IntegrityCheckFailed(result: string)
    | TableMissing(table: string)
    // migrations
    | StatementFailed(reason: string)
    | MigrationFailed(name: string, cause: Error)
    // JSONL files
    | OpenFailed(path: string)
    | CreateFailed(path: string)
    | UnsupportedDataType
    | EncodeFailed(what: string)
    | DecodeFailed(line: nat)
    // command layer
    | InvalidBeadId(id: string)
    | InvalidInsightId(id: string)
    | InvalidIdFormat(id: string)
    | InvalidInsightType(kind: string)
    | TypeAndShorthand
    | MultipleTypeFlags
    | NoDependencyType
    | MultipleDependencyTypes
    | InvalidStatus(status: string)
    | DatabaseNotFound(path: string)
    | DatabaseExists(path: string)
    | OpenDatabaseFailed
    | InvalidDurationFormat
    | InvalidDurationNumber
    | InvalidDurationUnit(unit: char)
    | UnknownFormat(format: string)
    | ParseFailed
    | ReadFailed
    | UnsupportedEditor(editor: string)
    | SettingsParseFailed
    | HooksNotInstalled
    | InvalidExternalRef(ref: string)
    | GitFailed
    // an error returned by a callee, wrapped with the caller's context
    | Wrapped(context: string, cause: Error)

  /** The SQL constraint an insert or update violated. */
  datatype Constraint = UniqueId | ForeignKeyThread

  datatype Result<+T> = Ok(value: T) | Err(error: Error)
}
