/** The rows of the durable store and the small types every module shares.
    Timestamps are not part of the rows; every other column is. */
module Model {

  datatype Option<+T> = None | Some(value: T) {
    function GetOr(default: T): T {
      if Some? then value else default
    }
  }

  /** An exception raised by a store method, or the value it returns. */
  datatype Result<+T> = Ok(value: T) | Err(error: Error)

  datatype Error =
    | KeyError              // the named row does not exist
    | ValueError            // an argument outside its enumeration or range
    | StateTransitionError  // the reference state model refuses the change
    | OwnershipError        // attempt and task belong to different jobs
    | IntegrityError        // a primary, unique or foreign key of the schema

  type JobId = string
  type TaskId = string
  type AttemptId = string
  type Commit = string

  datatype JobState = Queued | Planning | Running | Stopping | Stopped | Completed | Failed
  datatype TaskState = Pending | Running | Reviewing | Integrating | Completed | Failed | Blocked | Stopped
  datatype AttemptState = Running | Passed | Failed | Cancelled

  /** The acceptance journal: 'none', 'accepted', 'applying', 'published'. */
  datatype Phase = Ordinary | Accepted | Applying | Published
  datatype Intent = Requested | NotRequested
  /** The column source_apply_outcome; Unset is the empty string. */
  datatype Outcome = Unset | Applied | Skipped | NotApplied

  datatype Job = Job(
    repo: string, goal: string, baseBranch: string, baseCommit: Commit,
    integrationBranch: string, integrationPath: string, autoApply: bool,
    state: JobState, stopRequested: bool, finalSummary: string, error: string,
    acceptedCommit: Commit, phase: Phase, intent: Intent, outcome: Outcome, reason: string)

  datatype Task = Task(
    job: JobId, seqNo: nat, logicalId: string, title: string, description: string,
    dependencies: seq<string>, acceptance: seq<string>, preferredAgent: Option<string>,
    state: TaskState, attempts: int, branch: string, worktree: string, baseCommit: Commit,
    lastError: string, resultSummary: string)

  datatype Attempt = Attempt(
    job: JobId, task: TaskId, number: int, agent: string, worktree: string, branch: string,
    logPath: string, state: AttemptState, returncode: Option<int>, summary: string)

  datatype Dossier = Dossier(schemaVersion: int, sha: string, content: string, published: bool)

  /** The kinds written by the acceptance journal, with their payloads, and all other kinds. */
  datatype EventKind =
    | JobAccepted(commit: Commit, intent: Intent, sha: string)
    | ApplyStarted(commit: Commit)
    | DossierCreated(sha: string, schemaVersion: int, commit: Commit)
    | JobApplied(branch: string, commit: Commit)
    | ApplySkipped(reason: string)
    | JobCompleted(summary: string, branch: string, sha: string, commit: Commit, outcome: Outcome)
    | Other(name: string, payload: string)

  datatype Event = Event(job: JobId, task: Option<TaskId>, kind: EventKind)

  datatype PlannedTask = PlannedTask(
    logicalId: string, title: string, description: string, dependsOn: seq<string>,
    acceptance: seq<string>, preferredAgent: Option<string>, risk: string)

  /** The last n characters, as the slice s[-n:]. */
  function Tail(s: string, n: nat): string {
    if |s| <= n then s else s[|s| - n..]
  }
}
