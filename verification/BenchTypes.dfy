/** The records that flow through the benchmark engine (src/benchmark/types.ts). */
module BenchTypes {
  datatype Option<+T> = None | Some(value: T)

  /** A call that returns a value or throws. */
  datatype Outcome<+T> = Returned(value: T) | Threw

  datatype WorkerStatus = Completed | TaskFailure | TaskTimeout | InfraError | Invalid | Cancelled

  datatype UsageSource = Host | Unavailable

  datatype Usage = Usage(inputTokens: Option<nat>, outputTokens: Option<nat>, costUsd: Option<real>, source: UsageSource)

  datatype Activation = Activation(roleId: string, provider: string, model: string, promptDigest: string)

  datatype Runtime = Runtime(dshVersion: string, roleboxVersion: string)

  datatype WorkerResult = WorkerResult(
    status: WorkerStatus,
    output: string,
    activation: Option<Activation>,
    runtime: Option<Runtime>,
    usage: Usage,
    durationMs: real,
    terminationConfirmed: bool,
    diagnostic: Option<string>)

  /** What a case asks of the output or of the final workspace. */
  datatype Assertion =
    | Equals(value: string)
    | Contains(value: string)
    | FileExists(path: string)
    | FileEquals(path: string, value: string)
    | FileContains(path: string, value: string)
    | Command(argv: seq<string>, timeoutMs: int, expectedExitCode: int)

  datatype Kind = EqualsKind | ContainsKind | FileExistsKind | FileEqualsKind | FileContainsKind | CommandKind

  function KindOf(a: Assertion): Kind {
    match a
    case Equals(_) => EqualsKind
    case Contains(_) => ContainsKind
    case FileExists(_) => FileExistsKind
    case FileEquals(_, _) => FileEqualsKind
    case FileContains(_, _) => FileContainsKind
    case Command(_, _, _) => CommandKind
  }

  predicate IsFileKind(k: Kind) {
    k.FileExistsKind? || k.FileEqualsKind? || k.FileContainsKind?
  }

  datatype CommandStatus = CommandCompleted | CommandTimeout | CommandError | CommandCancelled

  datatype CommandEvidence = CommandEvidence(
    status: CommandStatus,
    exitCode: Option<int>,
    stdout: string,
    stderr: string,
    durationMs: int,
    terminationConfirmed: bool,
    truncated: bool)

  datatype AssertionResult = AssertionResult(kind: Kind, passed: bool, path: Option<string>, command: Option<CommandEvidence>)

  datatype Verdict = Pass | Fail | Unscored

  /** The messages the engine writes into `grade.error`; `Other` is any other text of a stored record. */
  datatype ErrorText =
    | CancelledBeforeStartup
    | UnsupportedPlatform
    | InvalidCommand
    | ChecksRequired
    | GraderCancelled
    | GraderUnconfirmed
    | CancelledUnconfirmed
    | TerminationUnconfirmed
    | NoExitCode
    | DescendantsRunning
    | OutputUnreadable
    | LifecycleIncomplete
    | DirectoryNotRemoved
    | WorkspaceGradingRequired
    | SecretInWorkspace
    | CaptureFailed
    | GradingFailed
    | SecretInGrade
    | Other(text: string)

  predicate EmptyText(e: ErrorText) { e == Other("") }

  datatype Grade = Grade(
    verdict: Verdict,
    assertions: seq<AssertionResult>,
    error: Option<ErrorText>,
    terminationConfirmed: Option<bool>)

  datatype ChangeKind = Added | Modified | Deleted

  datatype Change = Change(
    path: string,
    kind: ChangeKind,
    beforeDigest: Option<string>,
    afterDigest: Option<string>,
    beforeText: Option<string>,
    afterText: Option<string>,
    beforeExecutable: Option<bool>,
    afterExecutable: Option<bool>,
    contentOmitted: bool)

  datatype WorkspaceEvidence = WorkspaceEvidence(
    fixtureDigest: string,
    resultDigest: string,
    artifactDirectory: string,
    changes: seq<Change>)

  datatype Case = Case(id: string, assertions: seq<Assertion>, hasWorkspace: bool)

  datatype Trial = Trial(
    id: string,
    caseId: string,
    repetition: nat,
    result: WorkerResult,
    grade: Grade,
    workspace: Option<WorkspaceEvidence>)

  datatype RunStatus = Running | RunCompleted | RunIncomplete

  datatype RunRecord = RunRecord(
    id: string,
    suiteId: string,
    suiteDigest: string,
    roleDigest: string,
    startedAt: string,
    completedAt: Option<string>,
    status: RunStatus,
    plannedTrials: int,
    caseIds: seq<string>,
    repetitions: int,
    trials: seq<Trial>)
}
