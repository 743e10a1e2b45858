/** Specification and status records of a WorkflowRun, its child Runs and child WorkflowRuns. */
module WorkflowStatus {
  import opened Common

  type Outputs = map<string, string>

  datatype WorkflowPhase =
    | WorkflowUnset
    | WorkflowPending
    | WorkflowRunning
    | WorkflowSucceeded
    | WorkflowFailed
    | WorkflowCancelled
  {
    predicate Terminal() {
      WorkflowSucceeded? || WorkflowFailed? || WorkflowCancelled?
    }
  }

  datatype JobPhase = JobPending | JobWaiting | JobRunning | JobSucceeded | JobFailed | JobSkipped
  {
    predicate Unstarted() {
      JobPending? || JobWaiting?
    }

    predicate Blocking() {
      JobFailed? || JobSkipped?
    }

    predicate Terminal() {
      JobSucceeded? || JobFailed? || JobSkipped?
    }
  }

  datatype StepPhase = StepPending | StepRunning | StepSucceeded | StepFailed
  {
    predicate Terminal() {
      StepSucceeded? || StepFailed?
    }
  }

  datatype RunPhase =
    | RunPending
    | RunScheduled
    | RunRunning
    | RunReady
    | RunFinalizing
    | RunSucceeded
    | RunFailed
    | RunTimeout
    | RunCancelled
  {
    predicate Terminal() {
      RunSucceeded? || RunFailed? || RunTimeout? || RunCancelled?
    }
  }

  /** What has not ended is waiting or at work. */
  lemma PhasesPartition(w: WorkflowPhase, j: JobPhase, s: StepPhase, r: RunPhase)
    ensures w.Terminal() <==> w !in {WorkflowUnset, WorkflowPending, WorkflowRunning}
    ensures j.Terminal() <==> !j.Unstarted() && j != JobRunning
    ensures j.Terminal() <==> j.Blocking() || j == JobSucceeded
    ensures s.Terminal() <==> s !in {StepPending, StepRunning}
    ensures r.Terminal() <==> r !in {RunPending, RunScheduled, RunRunning, RunReady, RunFinalizing}
  {
  }

  datatype ActionStepStatus = ActionStepStatus(name: string, phase: StepPhase, runName: string, outputs: Outputs)

  datatype StepStatus = StepStatus(
    name: string, phase: StepPhase, runName: string, outputs: Outputs, actionSteps: seq<ActionStepStatus>)

  datatype JobStatus = JobStatus(
    phase: JobPhase, pre: seq<string>, workflowRunName: string, outputs: Outputs, steps: seq<StepStatus>)

  type JobStatuses = map<string, JobStatus>

  /** The labels that tie a child Run to its step; action is empty for an inline step. */
  datatype StepKey = StepKey(job: string, step: string, action: string)

  datatype Run = Run(name: string, phase: RunPhase, outputs: Outputs, terminating: bool)

  /** outputs is the resolved output contract of a finished child, None when it cannot be resolved. */
  datatype ChildWorkflow = ChildWorkflow(phase: WorkflowPhase, outputs: Option<Outputs>, cancelRequested: bool)

  datatype StepSpec = StepSpec(name: string, uses: string, inputs: map<string, string>)

  datatype JobSpec = JobSpec(
    runsOn: string, uses: string, needs: seq<string>, steps: seq<StepSpec>, outputs: map<string, string>)

  datatype ActionInput = ActionInput(required: bool, default: string)

  datatype ActionSpec = ActionSpec(
    inputs: map<string, ActionInput>, outputs: map<string, string>, steps: seq<string>)

  datatype ResolveContext = ResolveContext(
    inputs: Option<Outputs>, steps: map<string, Outputs>, jobs: map<string, Outputs>)

  /** Expression resolution is any deterministic partial function. */
  type Resolver = (string, ResolveContext) -> Option<string>
}
