/** The transition tables and the snapshot validator of the reference state model. */
module StateMachine {
  import opened Model

  function JobTransitions(s: JobState): set<JobState> {
    match s
    case Queued => {JobState.Queued, JobState.Planning, JobState.Running, JobState.Stopping, JobState.Failed}
    case Planning => {JobState.Planning, JobState.Running, JobState.Queued, JobState.Stopping, JobState.Failed}
    case Running => {JobState.Running, JobState.Queued, JobState.Stopping, JobState.Completed, JobState.Failed}
    case Stopping => {JobState.Stopping, JobState.Stopped, JobState.Queued, JobState.Completed, JobState.Failed}
    case Stopped => {JobState.Stopped, JobState.Queued}
    case Failed => {JobState.Failed, JobState.Queued}
    case Completed => {JobState.Completed}
  }

  function TaskTransitions(s: TaskState): set<TaskState> {
    match s
    case Pending => {TaskState.Pending, TaskState.Running, TaskState.Blocked, TaskState.Stopped, TaskState.Failed}
    case Running => {TaskState.Running, TaskState.Reviewing, TaskState.Pending, TaskState.Failed, TaskState.Stopped}
    case Reviewing =>
      {TaskState.Reviewing, TaskState.Integrating, TaskState.Pending, TaskState.Failed, TaskState.Stopped}
    case Integrating =>
      {TaskState.Integrating, TaskState.Pending, TaskState.Completed, TaskState.Failed, TaskState.Stopped}
    case Completed => {TaskState.Completed}
    case Failed => {TaskState.Failed, TaskState.Pending}
    case Blocked => {TaskState.Blocked, TaskState.Pending, TaskState.Failed, TaskState.Stopped}
    case Stopped => {TaskState.Stopped, TaskState.Pending}
  }

  function AttemptTransitions(s: AttemptState): set<AttemptState> {
    match s
    case Running => {AttemptState.Running, AttemptState.Passed, AttemptState.Failed, AttemptState.Cancelled}
    case _ => {s}
  }

  predicate Inflight(s: TaskState) {
    s.Running? || s.Reviewing? || s.Integrating?
  }

  /** validate_job_snapshot returns instead of raising. The validator asks only whether any
      or all of the given states have a property, so its iterables are sets here. */
  predicate ValidJobSnapshot(state: JobState, tasks: set<TaskState>, stopRequested: bool,
                             runningOwners: set<TaskState>, phase: Option<Phase>)
  {
    && (state.Completed? ==> forall t <- tasks :: t.Completed?)
    && (state.Queued? || state.Stopped? || state.Failed? ==> forall t <- tasks :: !Inflight(t))
    && (state.Stopped? ==> stopRequested)
    && (state.Completed? ==> !stopRequested)
    && (runningOwners != {} ==>
          && (state.Running? || state.Stopping?)
          && forall o <- runningOwners :: Inflight(o))
    && (phase.Some? ==>
          && (!phase.value.Ordinary? ==> (forall t <- tasks :: t.Completed?) && runningOwners == {})
          && (phase.value.Accepted? || phase.value.Applying? ==> state.Running? || state.Stopping?)
          && (phase.value.Published? <==> state.Completed?))
  }
}
