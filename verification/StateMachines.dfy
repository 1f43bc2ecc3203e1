/** The three transition tables (WorkflowRun, NodeRun, ExecutionTask). */
module StateMachines {

  datatype RunStatus =
    | RunCreated | RunRunning | RunWaiting | RunPaused
    | RunCompleted | RunFailed | RunCancelled

  datatype NodeStatus =
    | NodePending | NodeQueued | NodeRunning | NodeWaiting | NodeRetrying
    | NodeCompleted | NodeFailed | NodeSkipped | NodeCancelled

  datatype TaskStatus =
    | TaskPending | TaskClaimed | TaskRunning | TaskRetryWait
    | TaskCompleted | TaskFailed | TaskCancelled

  /** `target in WORKFLOW_RUN_TRANSITIONS[current]`. */
  predicate RunMay(s: RunStatus, t: RunStatus) {
    match s
    case RunCreated => t.RunRunning? || t.RunCancelled?
    case RunRunning => t.RunWaiting? || t.RunPaused? || t.RunCompleted? || t.RunFailed? || t.RunCancelled?
    case RunWaiting => t.RunRunning? || t.RunPaused? || t.RunFailed? || t.RunCancelled?
    case RunPaused => t.RunRunning? || t.RunCancelled?
    case _ => false
  }

  /** `target in NODE_RUN_TRANSITIONS[current]`. */
  predicate NodeMay(s: NodeStatus, t: NodeStatus) {
    match s
    case NodePending => t.NodeQueued? || t.NodeSkipped? || t.NodeCancelled?
    case NodeQueued => t.NodeRunning? || t.NodeCancelled?
    case NodeRunning => t.NodeCompleted? || t.NodeFailed? || t.NodeWaiting? || t.NodeRetrying? || t.NodeCancelled?
    case NodeWaiting => t.NodeRunning? || t.NodeCompleted? || t.NodeFailed? || t.NodeCancelled?
    case NodeRetrying => t.NodeQueued? || t.NodeFailed? || t.NodeCancelled?
    case _ => false
  }

  /** `target in EXECUTION_TASK_TRANSITIONS[current]`. */
  predicate TaskMay(s: TaskStatus, t: TaskStatus) {
    match s
    case TaskPending => t.TaskClaimed? || t.TaskCancelled?
    case TaskClaimed => t.TaskRunning? || t.TaskPending? || t.TaskCancelled?
    case TaskRunning => t.TaskCompleted? || t.TaskRetryWait? || t.TaskFailed? || t.TaskCancelled? || t.TaskPending?
    case TaskRetryWait => t.TaskPending? || t.TaskFailed? || t.TaskCancelled?
    case _ => false
  }

  predicate RunTerminal(s: RunStatus) {
    s.RunCompleted? || s.RunFailed? || s.RunCancelled?
  }

  predicate NodeTerminal(s: NodeStatus) {
    s.NodeCompleted? || s.NodeFailed? || s.NodeSkipped? || s.NodeCancelled?
  }

  predicate TaskTerminal(s: TaskStatus) {
    s.TaskCompleted? || s.TaskFailed? || s.TaskCancelled?
  }

  /** Settled node states: the ones a successor may rely on for good. */
  predicate Settled(s: NodeStatus) {
    s.NodeCompleted? || s.NodeSkipped?
  }
}
