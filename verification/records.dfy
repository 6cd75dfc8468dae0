/** The durable records of the control plane (controller/internal/state/types.go). */
module Records {
  import opened Common

  datatype JobState =
    JobQueued | JobProvisioning | JobAssigned | JobRunning | JobCompleted | JobCancelled | JobFailed

  datatype RunnerState =
    RunnerProvisioning | RunnerReady | RunnerBusy | RunnerTerminating | RunnerTerminated | RunnerFailed | RunnerUnknown

  datatype LeaseState =
    LeasePending | LeaseActive | LeaseCompleted | LeaseCancelled | LeaseFailed | LeaseTerminating | LeaseTerminated

  /** What every record carries besides its own data: identity, stamps and the optimistic revision. */
  datatype Record<+B> = Record(id: string, createdAt: Time, updatedAt: Time, revision: int, data: B)

  datatype JobData = JobData(
    repository: string, workflow: string, runID: int, jobNumber: int, attempt: int, labels: seq<string>,
    state: JobState, owner: string, expiresAt: Time)

  datatype RunnerData = RunnerData(
    jobID: string, leaseID: string, provider: string, instanceID: string, poolID: string,
    cpu: int, memoryGB: int, gpu: int, region: string, labels: seq<string>,
    state: RunnerState, owner: string, expiresAt: Time)

  datatype LeaseData = LeaseData(
    jobID: string, runnerID: string, state: LeaseState, owner: string, expiresAt: Time)

  type Job = Record<JobData>
  type Runner = Record<RunnerData>
  type Lease = Record<LeaseData>

  datatype Event = Event(
    id: string, key: string, kind: string, jobID: string, leaseID: string, runnerID: string,
    provider: string, occurredAt: Time, data: map<string, string>)

  predicate TerminalJob(s: JobState) {
    s == JobCompleted || s == JobCancelled || s == JobFailed
  }
}
