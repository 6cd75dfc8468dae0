/**
 What one pass decides, in the records' own terms: which job it fails, which runner it stops, what it makes of a
 lease, and what it leaves alone. Nothing here mentions the loops or the order in which they run.
 */
module Outcomes {
  import opened Common
  import opened Records
  import opened Memory
  import opened Providers
  import opened Cells
  import opened Reconciling
  import opened Passes

  // ---------------------------------------------------------------- what a status means

  function StatusText(s: Status): string {
    match s
    case StatusUnknown => "unknown"
    case StatusProvisioning => "provisioning"
    case StatusReady => "ready"
    case StatusBusy => "busy"
    case StatusTerminating => "terminating"
    case StatusTerminated => "terminated"
    case StatusFailed => "failed"
  }

  function StateText(s: RunnerState): string {
    match s
    case RunnerProvisioning => "provisioning"
    case RunnerReady => "ready"
    case RunnerBusy => "busy"
    case RunnerTerminating => "terminating"
    case RunnerTerminated => "terminated"
    case RunnerFailed => "failed"
    case RunnerUnknown => "unknown"
  }

  /** A provider status means the runner state of the same name; an instance that is not found has terminated. */
  lemma StatusMeansItsName(live: Option<Status>)
    ensures StateText(Truth(live)) == if live.Some? then StatusText(live.value) else "terminated"
  {
  }

  /** A deadline is due from its own instant on, unless it is unset; a job is over in three of its states. */
  lemma DueAndOver(expiresAt: Time, now: Time, s: JobState)
    ensures Due(expiresAt, now) <==> expiresAt != NO_TIME && !(now < expiresAt)
    ensures TerminalJob(s) <==> s in {JobCompleted, JobCancelled, JobFailed}
  {
  }

  // ---------------------------------------------------------------- one component

  /** The runner's state after asking the provider: its word, unless asking or saving fails or the runner is over. */
  function Known(r: Runner, live: Option<Status>, faults: Faults): RunnerState {
    if r.data.state == RunnerTerminated || ReadStatus(r.id) in faults || SaveTruth(r.id) in faults then r.data.state
    else Truth(live)
  }

  predicate Lost(s: RunnerState) {
    s in {RunnerTerminated, RunnerFailed, RunnerUnknown}
  }

  predicate Concluded(s: LeaseState) {
    s in {LeaseCompleted, LeaseCancelled, LeaseFailed, LeaseTerminated}
  }

  predicate HasItsRunner(l: Lease, r: Option<Runner>) {
    r.Some? && r.value.id == l.data.runnerID
  }

  /**
   Nobody will finish the job: it was assigned and has no lease, or its lease has ended or runs out in this pass, or
   the lease's runner is missing or lost.
   */
  predicate Abandoned(c: Cell, faults: Faults, now: Time)
    requires c.job.Some?
  {
    if c.lease.None? then c.job.value.data.state in {JobAssigned, JobRunning}
    else
      var l := c.lease.value;
      || Concluded(l.data.state)
      || (Due(l.data.expiresAt, now) && RepairLease(l.id) !in faults)
      || !HasItsRunner(l, c.runner)
      || Lost(Known(c.runner.value, c.live, faults))
  }

  predicate Fails(c: Cell, faults: Faults, now: Time)
    requires c.job.Some?
  {
    var j := c.job.value;
    && !TerminalJob(j.data.state)
    && if Due(j.data.expiresAt, now) then ExpireJob(j.id) !in faults
       else RepairJob(j.id) !in faults && Abandoned(c, faults, now)
  }

  /** The job's runner is ready or busy, and neither deadline nor fault keeps the job from following it. */
  predicate Follows(c: Cell, faults: Faults, now: Time, s: RunnerState)
    requires c.job.Some?
  {
    var j := c.job.value;
    && !TerminalJob(j.data.state) && !Due(j.data.expiresAt, now) && RepairJob(j.id) !in faults
    && !Abandoned(c, faults, now) && c.lease.Some? && HasItsRunner(c.lease.value, c.runner)
    && Known(c.runner.value, c.live, faults) == s
  }

  lemma TruthMeans(c: Cell, faults: Faults, at: Time)
    requires ValidCell(c)
    ensures var d := TruthStep(c, faults, at);
      && ValidCell(d) && d == c.(runner := d.runner, seen := d.runner) && d.runner.Some? == c.runner.Some?
      && (c.runner.Some? ==>
        && d.runner.value.id == c.runner.value.id
        && d.runner.value.data == c.runner.value.data.(state := Known(c.runner.value, c.live, faults))
        && (d.runner.value.data == c.runner.value.data ==> d == c))
  {
  }

  /** The lease's state after the pass. */
  function LeaseOutcome(l: Lease, c: Cell, faults: Faults, now: Time): LeaseState {
    var s := l.data.state;
    if RepairLease(l.id) in faults then s
    else if c.job.None? || !HasItsRunner(l, c.runner) then
      if s == LeaseTerminated then s else LeaseFailed
    else if Due(l.data.expiresAt, now) || TerminalJob(c.job.value.data.state) then LeaseTerminated
    else
      var known := Known(c.runner.value, c.live, faults);
      if known == RunnerTerminated then LeaseTerminated
      else if Lost(known) then LeaseFailed
      else if s == LeasePending then LeaseActive
      else s
  }

  lemma LeaseMeans(c: Cell, faults: Faults, now: Time, at: Time)
    requires ValidCell(c)
    ensures var d := LeaseStep(TruthStep(c, faults, at), faults, now, at);
      && ValidCell(d) && d.job == c.job && d.live == c.live && d.runner == TruthStep(c, faults, at).runner
      && d.lease.Some? == c.lease.Some?
      && (c.lease.Some? ==>
        var l := c.lease.value;
        && d.lease.value.id == l.id && d.lease.value.data == l.data.(state := d.lease.value.data.state)
        && d.lease.value.data.state == LeaseOutcome(l, c, faults, now)
        && (d.lease.value.data == l.data ==> d.lease == c.lease))
  {
    TruthMeans(c, faults, at);
  }

  lemma LateStepsKeep(c: Cell, faults: Faults, now: Time, at: Time)
    ensures var d := ReapStep(OrphanStep(c, faults, at), faults, now, at);
      d.job == c.job && d.lease == c.lease
  {
  }

  /** What a pass makes of a lease. */
  lemma LeaseAfterPass(c: Cell, faults: Faults, now: Time, at: Time)
    requires ValidCell(c) && c.lease.Some?
    ensures var l, d := c.lease.value, NextCell(c, faults, now, at);
      && d.lease.Some? && d.lease.value.id == l.id && d.lease.value.data == l.data.(state := d.lease.value.data.state)
      && d.lease.value.data.state == LeaseOutcome(l, c, faults, now)
  {
    LeaseMeans(c, faults, now, at);
    var c2 := LeaseStep(TruthStep(c, faults, at), faults, now, at);
    JobKeepsLease(c2, faults, now, at);
    LateStepsKeep(JobStep(c2, faults, now, at), faults, now, at);
    hide TruthStep, LeaseStep, JobStep, OrphanStep, ReapStep, LeaseOutcome;
  }

  lemma JobKeepsLease(c: Cell, faults: Faults, now: Time, at: Time)
    ensures JobStep(c, faults, now, at).lease == c.lease
  {
    hide StopRunner, JobTarget;
  }

  lemma CleanupKeepsJob(c: Cell, faults: Faults, at: Time)
    requires c.job.Some? && TerminalJob(c.job.value.data.state)
    ensures SettleJob(c, faults, at).job == c.job && SettleJob(c, faults, at).lease == c.lease
  {
    hide StopRunner;
  }

  lemma JobMeans(c: Cell, faults: Faults, now: Time, at: Time)
    requires ValidCell(c) && c.job.Some?
    ensures var j, d := c.job.value, JobStep(c, faults, now, at);
      && d.job.Some? && d.job.value.id == j.id && d.job.value.data == j.data.(state := d.job.value.data.state)
      && (d.job.value.data == j.data ==> d.job == c.job)
      && d.job.value.data.state ==
        if TerminalJob(j.data.state) then j.data.state
        else if Due(j.data.expiresAt, now) then if ExpireJob(j.id) in faults then j.data.state else JobFailed
        else if RepairJob(j.id) in faults then j.data.state
        else JobTarget(j, c.lease, c.seen)
  {
    hide StopRunner, JobTarget;
    var j := c.job.value;
    if TerminalJob(j.data.state) {
      CleanupKeepsJob(c, faults, at);
    } else if Due(j.data.expiresAt, now) && ExpireJob(j.id) !in faults {
      CleanupKeepsJob(c.(job := Saving(c.job, JobIn(j, JobFailed), false, at)), faults, at);
    }
  }

  /** A pass fails an unfinished job exactly if it is due or abandoned and this is saved; others follow the runner. */
  lemma JobAfterPass(c: Cell, faults: Faults, now: Time, at: Time)
    requires ValidCell(c) && c.job.Some?
    ensures var j, d := c.job.value, NextCell(c, faults, now, at);
      && d.job.Some? && d.job.value.id == j.id && d.job.value.data == j.data.(state := d.job.value.data.state)
      && (TerminalJob(j.data.state) ==> d.job == c.job)
      && (!TerminalJob(j.data.state) ==> (d.job.value.data.state == JobFailed <==> Fails(c, faults, now)))
      && (Follows(c, faults, now, RunnerBusy) ==> d.job.value.data.state == JobRunning)
      && (Follows(c, faults, now, RunnerReady) ==>
        d.job.value.data.state == if j.data.state == JobRunning then JobRunning else JobAssigned)
      && (!Fails(c, faults, now) && !Follows(c, faults, now, RunnerBusy) && !Follows(c, faults, now, RunnerReady) ==>
        d.job == c.job)
  {
    LeaseMeans(c, faults, now, at);
    TruthMeans(c, faults, at);
    var c2 := LeaseStep(TruthStep(c, faults, at), faults, now, at);
    JobMeans(c2, faults, now, at);
    LateStepsKeep(JobStep(c2, faults, now, at), faults, now, at);
    hide TruthStep, LeaseStep, JobStep, OrphanStep, ReapStep;
  }

  // ---------------------------------------------------------------- one component's runner

  /** The job is over or due, and no lease gives it another runner. */
  predicate GivesUpRunner(c: Cell, now: Time) {
    && c.job.Some? && (TerminalJob(c.job.value.data.state) || Due(c.job.value.data.expiresAt, now))
    && (c.lease.Some? ==> HasItsRunner(c.lease.value, c.runner))
  }

  /** The runner is due, its job is unknown, or its job gives it up. */
  predicate MustStop(c: Cell, now: Time)
    requires c.runner.Some?
  {
    var r := c.runner.value;
    Due(r.data.expiresAt, now) || (c.job.None? && r.data.jobID != "") || GivesUpRunner(c, now)
  }

  /** Whatever fails, an instance is only stopped for one of these reasons; without, its record just says the truth. */
  lemma StoppedOnlyForAReason(c: Cell, faults: Faults, now: Time, at: Time)
    requires ValidCell(c) && c.runner.Some? && !MustStop(c, now)
    ensures var r, d := c.runner.value, NextCell(c, faults, now, at);
      && d.live == c.live && d.runner.Some? && d.runner.value.id == r.id
      && d.runner.value.data == r.data.(state := Known(r, c.live, faults))
      && (d.runner.value.data == r.data ==> d.runner == c.runner)
  {
    hide StopRunner, JobTarget;
    TruthMeans(c, faults, at);
    LeaseMeans(c, faults, now, at);
    var c2 := LeaseStep(TruthStep(c, faults, at), faults, now, at);
    WithoutReasonNothingStops(c2, faults, now, at);
    hide TruthStep, LeaseStep, JobStep, OrphanStep, ReapStep;
  }

  lemma WithoutReasonNothingStops(c: Cell, faults: Faults, now: Time, at: Time)
    requires ValidCell(c) && c.runner.Some? && !MustStop(c, now)
    ensures var d := ReapStep(OrphanStep(JobStep(c, faults, now, at), faults, at), faults, now, at);
      d.runner == c.runner && d.live == c.live
  {
    hide StopRunner, JobTarget;
  }

  predicate Marked(r: Runner) {
    r.data.state in {RunnerTerminating, RunnerTerminated}
  }

  lemma StopMarks(stored: Runner, live: Option<Status>, r: Runner, phase: Phase, faults: Faults, at: Time)
    requires Fresh(r, stored) && r.data.state != RunnerTerminated && (r == stored || Marked(stored))
    ensures var s := StopRunner(Some(stored), live, r, phase, faults, at);
      && s.runner.Some? && Fresh(s.last, s.runner.value) && Fresh(r, s.runner.value)
      && (s.runner.value == stored || Marked(s.runner.value)) && (s.last == s.runner.value || Marked(s.runner.value))
      && (s.live != live || Marked(stored) ==> Marked(s.runner.value))
  {
  }

  /** If the instance is no longer what it was, or the copy no longer the stored record, then that says it is ending. */
  predicate MarkedIfStopped(c: Cell, live: Option<Status>) {
    && c.runner.Some? && c.seen.Some? && Fresh(c.seen.value, c.runner.value)
    && (c.live != live || c.seen != c.runner ==> Marked(c.runner.value))
  }

  lemma JobMarks(c: Cell, faults: Faults, now: Time, at: Time, live: Option<Status>)
    requires MarkedIfStopped(c, live)
    ensures MarkedIfStopped(JobStep(c, faults, now, at), live)
  {
    hide StopRunner, JobTarget, Marked, Fresh;
    if c.seen.value.data.state != RunnerTerminated {
      StopMarks(c.runner.value, c.live, c.seen.value, Cleanup, faults, at);
    }
  }

  lemma LateStepsMark(c: Cell, faults: Faults, now: Time, at: Time, live: Option<Status>)
    requires MarkedIfStopped(c, live)
    ensures MarkedIfStopped(OrphanStep(c, faults, at), live) && MarkedIfStopped(ReapStep(c, faults, now, at), live)
  {
    hide StopRunner, Marked, Fresh;
    if c.seen.value.data.state != RunnerTerminated {
      StopMarks(c.runner.value, c.live, c.seen.value, Orphan, faults, at);
      StopMarks(c.runner.value, c.live, c.seen.value, Reap, faults, at);
    }
  }

  /** Whatever fails, no instance is stopped before the stored record of its runner says that it is ending. */
  lemma StoppedIsMarked(c: Cell, faults: Faults, now: Time, at: Time)
    requires ValidCell(c) && c.runner.Some?
    ensures var d := NextCell(c, faults, now, at);
      d.runner.Some? && (d.live != c.live ==> Marked(d.runner.value))
  {
    TruthMeans(c, faults, at);
    LeaseMeans(c, faults, now, at);
    var c2 := LeaseStep(TruthStep(c, faults, at), faults, now, at);
    hide TruthStep, LeaseStep, JobStep, OrphanStep, ReapStep, Marked;
    JobMarks(c2, faults, now, at, c.live);
    LateStepsMark(JobStep(c2, faults, now, at), faults, now, at, c.live);
    LateStepsMark(OrphanStep(JobStep(c2, faults, now, at), faults, at), faults, now, at, c.live);
  }

  /** If nothing fails, each of the reasons ends the runner, in the store and at the provider. */
  lemma StoppedForEveryReason(c: Cell, now: Time, at: Time)
    requires ValidCell(c) && c.runner.Some? && MustStop(c, now)
    ensures var r, d := c.runner.value, NextCell(c, {}, now, at);
      && d.runner.Some? && d.runner.value.id == r.id && d.runner.value.data == r.data.(state := RunnerTerminated)
      && d.live == if Known(r, c.live, {}) == RunnerTerminated then c.live else Ended(c.live)
  {
    TruthMeans(c, {}, at);
    LeaseMeans(c, {}, now, at);
    var c2 := LeaseStep(TruthStep(c, {}, at), {}, now, at);
    ReasonStops(c2, now, at);
    hide TruthStep, LeaseStep, JobStep, OrphanStep, ReapStep;
  }

  /** From `c` to `d` the runner was ended, in the store and at the provider. */
  predicate RunnerEnded(c: Cell, d: Cell)
    requires c.runner.Some?
  {
    var r := c.runner.value;
    && ValidCell(d) && d.job.Some? == c.job.Some?
    && d.runner.Some? && d.runner.value.id == r.id && d.runner.value.data == r.data.(state := RunnerTerminated)
    && d.live == if r.data.state == RunnerTerminated then c.live else Ended(c.live)
  }

  lemma CleanupEnds(c: Cell, phase: Phase, at: Time)
    requires ValidCell(c) && c.runner.Some? && c.runner.value.data.state != RunnerTerminated
    ensures RunnerEnded(c, CleanupStep(c, phase, {}, at))
    ensures var s := StopRunner(c.runner, c.live, c.seen.value, phase, {}, at);
      RunnerEnded(c, c.(runner := s.runner, live := s.live, seen := Some(s.last)))
  {
    StopWithoutFaults(c.runner.value, c.live, phase, at);
    hide StopRunner;
  }

  lemma JobEnds(c: Cell, now: Time, at: Time)
    requires ValidCell(c) && c.runner.Some?
    ensures var d := JobStep(c, {}, now, at);
      RunnerEnded(c, d) || (ValidCell(d) && d.runner == c.runner && d.live == c.live && d.job.Some? == c.job.Some?)
    ensures GivesUpRunner(c, now) ==> RunnerEnded(c, JobStep(c, {}, now, at))
  {
    hide JobTarget, StopRunner, CleanupStep;
    if c.job.Some? && c.runner.value.data.state != RunnerTerminated {
      var j := c.job.value;
      CleanupEnds(c, Cleanup, at);
      CleanupEnds(c.(job := Saving(c.job, JobIn(j, JobFailed), false, at)), Cleanup, at);
    }
  }

  lemma LateStepsEnd(c: Cell, now: Time, at: Time)
    requires ValidCell(c) && c.runner.Some?
    requires Due(c.runner.value.data.expiresAt, now) || (c.job.None? && c.runner.value.data.jobID != "") ||
      c.runner.value.data.state == RunnerTerminated
    ensures RunnerEnded(c, ReapStep(OrphanStep(c, {}, at), {}, now, at))
  {
    hide StopRunner, CleanupStep;
    if c.runner.value.data.state != RunnerTerminated {
      CleanupEnds(c, Orphan, at);
      CleanupEnds(c, Reap, at);
    }
  }

  lemma ReasonStops(c: Cell, now: Time, at: Time)
    requires ValidCell(c) && c.runner.Some? && MustStop(c, now)
    ensures RunnerEnded(c, ReapStep(OrphanStep(JobStep(c, {}, now, at), {}, at), {}, now, at))
  {
    JobEnds(c, now, at);
    LateStepsEnd(JobStep(c, {}, now, at), now, at);
    hide JobStep, OrphanStep, ReapStep;
  }

  // ---------------------------------------------------------------- what a pass leaves alone

  /** A job at work: its lease is active, its runner is what the provider says, and no deadline has passed. */
  predicate AtWork(j: Job, l: Lease, r: Runner, live: Option<Status>, now: Time) {
    && l.data.state == LeaseActive && l.data.runnerID == r.id
    && !Due(j.data.expiresAt, now) && !Due(l.data.expiresAt, now) && !Due(r.data.expiresAt, now)
    && ( || (live == Some(StatusBusy) && r.data.state == RunnerBusy && j.data.state == JobRunning)
         || (live == Some(StatusReady) && r.data.state == RunnerReady && j.data.state in {JobAssigned, JobRunning})
         || (live == Some(StatusProvisioning) && r.data.state == RunnerProvisioning && !TerminalJob(j.data.state)))
  }

  /** A component at work is left alone, whatever fails. */
  lemma WorkGoesOn(c: Cell, faults: Faults, now: Time, at: Time)
    requires ValidCell(c) && c.job.Some? && c.lease.Some? && c.runner.Some?
    requires AtWork(c.job.value, c.lease.value, c.runner.value, c.live, now)
    ensures NextCell(c, faults, now, at) == c
  {
    QuietStays(c, faults, now, at);
  }

  /** If nothing fails, an unfinished job whose runner the provider calls busy is running after the pass. */
  lemma BusyMeansRunning(c: Cell, now: Time, at: Time)
    requires ValidCell(c) && c.job.Some? && c.lease.Some? && c.runner.Some? && c.live == Some(StatusBusy)
    requires c.lease.value.data.state in {LeasePending, LeaseActive} && HasItsRunner(c.lease.value, c.runner)
    requires c.runner.value.data.state != RunnerTerminated && !TerminalJob(c.job.value.data.state)
    requires !Due(c.job.value.data.expiresAt, now) && !Due(c.lease.value.data.expiresAt, now)
    ensures var d := NextCell(c, {}, now, at);
      && d.job.Some? && d.job.value.data.state == JobRunning
      && d.lease.Some? && d.lease.value.data.state == LeaseActive
  {
    JobAfterPass(c, {}, now, at);
    LeaseAfterPass(c, {}, now, at);
    hide NextCell;
  }

  // ---------------------------------------------------------------- the same of whole stores

  /** The lease has ended, ends in this pass, or has no runner that could go on. */
  predicate LeaseLost(w: World, l: string, faults: Faults, now: Time)
    requires l in w.leases
  {
    var d := w.leases[l].data;
    || Concluded(d.state) || (Due(d.expiresAt, now) && RepairLease(l) !in faults) || d.runnerID !in w.runners
    || Lost(Known(w.runners[d.runnerID], Get(w.live, d.runnerID), faults))
  }

  ghost predicate JobAbandoned(w: World, j: string, faults: Faults, now: Time)
    requires j in w.jobs
  {
    || (exists l :: l in w.leases && w.leases[l].data.jobID == j && LeaseLost(w, l, faults, now))
    || (w.jobs[j].data.state in {JobAssigned, JobRunning} && forall l | l in w.leases :: w.leases[l].data.jobID != j)
  }

  lemma CellOfJob(w: World, ix: Index, j: string, faults: Faults, now: Time)
    requires Indexed(w, ix) && j in w.jobs
    ensures var c := CellAt(w, w.runners, ix, ForJob(j));
      ValidCell(c) && c.job == Some(w.jobs[j]) && (Abandoned(c, faults, now) <==> JobAbandoned(w, j, faults, now))
  {
    IndexedCellsAreValid(w, ix, ForJob(j));
    JobCell(w, ix, j);
    var c := CellAt(w, w.runners, ix, ForJob(j));
    if c.lease.Some? {
      CellOfLease(w, ix, c.lease.value.id);
    }
    if l :| l in w.leases && w.leases[l].data.jobID == j {
      CellOfLease(w, ix, l);
    }
  }

  lemma CellOfLease(w: World, ix: Index, l: string)
    requires Indexed(w, ix) && l in w.leases && w.leases[l].data.jobID in w.jobs
    ensures var c, d := CellAt(w, w.runners, ix, ForJob(w.leases[l].data.jobID)), w.leases[l].data;
      && c.lease == Some(w.leases[l]) && w.leases[l].id == l && c.job == Some(w.jobs[d.jobID])
      && (HasItsRunner(w.leases[l], c.runner) <==> d.runnerID in w.runners)
      && (d.runnerID in w.runners ==> c.runner == Some(w.runners[d.runnerID]) && c.live == Get(w.live, d.runnerID))
  {
    LeaseCell(w, ix, l);
    NoNamelessJob(w, ix);
    JobCell(w, ix, w.leases[l].data.jobID);
    if w.leases[l].data.runnerID in w.runners {
      KeyHoldsItsRunner(w, ix, w.leases[l].data.runnerID);
    }
  }

  /** Over every store, every order and any faults: the unfinished jobs that a pass fails are exactly these. */
  lemma PassFailsJobIff(w: World, w': World, ix: Index, faults: Faults, now: Time, at: Time, j: string)
    requires Passed(w, w', ix, faults, now, at) && j in w.jobs && !TerminalJob(w.jobs[j].data.state)
    ensures j in w'.jobs
    ensures w'.jobs[j].data.state == JobFailed <==>
      if Due(w.jobs[j].data.expiresAt, now) then ExpireJob(j) !in faults
      else RepairJob(j) !in faults && JobAbandoned(w, j, faults, now)
  {
    hide Abandoned, JobAbandoned, NextCell, SafeWorld;
    CellOfJob(w, ix, j, faults, now);
    JobAfterPass(CellAt(w, w.runners, ix, ForJob(j)), faults, now, at);
    assert w.jobs[j].id == j;
    assert CellAt(w', w'.runners, ix, ForJob(j)).job == Get(w'.jobs, j);
  }

  /** A job at work keeps its records and its instance in every pass, whatever fails there or anywhere else. */
  lemma PassLeavesWorkAlone(w: World, w': World, ix: Index, faults: Faults, now: Time, at: Time, l: string)
    requires Passed(w, w', ix, faults, now, at) && l in w.leases
    requires w.leases[l].data.jobID in w.jobs && w.leases[l].data.runnerID in w.runners
    requires var d := w.leases[l].data;
      AtWork(w.jobs[d.jobID], w.leases[l], w.runners[d.runnerID], Get(w.live, d.runnerID), now)
    ensures var d := w.leases[l].data;
      && Get(w'.jobs, d.jobID) == Some(w.jobs[d.jobID]) && Get(w'.leases, l) == Some(w.leases[l])
      && Get(w'.runners, d.runnerID) == Some(w.runners[d.runnerID])
      && Get(w'.live, d.runnerID) == Get(w.live, d.runnerID)
  {
    var k, d := ForJob(w.leases[l].data.jobID), w.leases[l].data;
    CellOfLease(w, ix, l);
    IndexedCellsAreValid(w, ix, k);
    WorkGoesOn(CellAt(w, w.runners, ix, k), faults, now, at);
    LeaseCell(w, ix, l);
    KeyHoldsItsRunner(w, ix, d.runnerID);
  }

  /** The same of an unfinished job whose runner the provider calls busy: if nothing fails it is running afterwards. */
  lemma PassSetsBusyJobsRunning(w: World, w': World, ix: Index, now: Time, at: Time, l: string)
    requires Passed(w, w', ix, {}, now, at) && l in w.leases
    requires w.leases[l].data.jobID in w.jobs && w.leases[l].data.runnerID in w.runners
    requires var d := w.leases[l].data;
      && d.state in {LeasePending, LeaseActive} && !Due(d.expiresAt, now) && !Due(w.jobs[d.jobID].data.expiresAt, now)
      && !TerminalJob(w.jobs[d.jobID].data.state) && w.runners[d.runnerID].data.state != RunnerTerminated
      && Get(w.live, d.runnerID) == Some(StatusBusy)
    ensures var j := w.leases[l].data.jobID; j in w'.jobs && w'.jobs[j].data.state == JobRunning
  {
    hide NextCell, SafeWorld;
    var k := ForJob(w.leases[l].data.jobID);
    CellOfLease(w, ix, l);
    IndexedCellsAreValid(w, ix, k);
    BusyMeansRunning(CellAt(w, w.runners, ix, k), now, at);
    assert CellAt(w', w'.runners, ix, k).job == Get(w'.jobs, k.job);
  }

  /** The runner is due, its job is unknown, or its job is over or due and no lease gives that job another runner. */
  ghost predicate RunnerMustStop(w: World, r: string, now: Time)
    requires r in w.runners
  {
    var d := w.runners[r].data;
    || Due(d.expiresAt, now)
    || (d.jobID != "" && d.jobID !in w.jobs)
    || (d.jobID in w.jobs
      && (TerminalJob(w.jobs[d.jobID].data.state) || Due(w.jobs[d.jobID].data.expiresAt, now))
      && forall l | l in w.leases && w.leases[l].data.jobID == d.jobID :: w.leases[l].data.runnerID == r)
  }

  lemma CellOfRunner(w: World, ix: Index, r: string, now: Time)
    requires Indexed(w, ix) && r in w.runners
    ensures var c := CellAt(w, w.runners, ix, KeyOf(w, r));
      && ValidCell(c) && c.runner == Some(w.runners[r]) && w.runners[r].id == r && c.live == Get(w.live, r)
      && (MustStop(c, now) <==> RunnerMustStop(w, r, now))
  {
    var k := KeyOf(w, r);
    KeyHoldsItsRunner(w, ix, r);
    IndexedCellsAreValid(w, ix, k);
    NoNamelessJob(w, ix);
    var c := CellAt(w, w.runners, ix, k);
    if w.runners[r].data.jobID in w.jobs {
      JobCell(w, ix, w.runners[r].data.jobID);
      assert c.job == Some(w.jobs[w.runners[r].data.jobID]);
    }
  }

  /** If nothing fails, a pass ends exactly the runners with a reason to end; of the others it records the truth. */
  lemma PassStopsRunnerIff(w: World, w': World, ix: Index, now: Time, at: Time, r: string)
    requires Passed(w, w', ix, {}, now, at) && r in w.runners
    ensures var known := Known(w.runners[r], Get(w.live, r), {});
      && r in w'.runners
      && w'.runners[r].data.state == (if RunnerMustStop(w, r, now) then RunnerTerminated else known)
      && Get(w'.live, r) ==
        if RunnerMustStop(w, r, now) && known != RunnerTerminated then Ended(Get(w.live, r)) else Get(w.live, r)
  {
    hide NextCell, SafeWorld, MustStop, RunnerMustStop, Known;
    CellOfRunner(w, ix, r, now);
    var c := CellAt(w, w.runners, ix, KeyOf(w, r));
    if MustStop(c, now) {
      StoppedForEveryReason(c, now, at);
    } else {
      StoppedOnlyForAReason(c, {}, now, at);
    }
    KeyHoldsItsRunner(w, ix, r);
  }

  /** And whatever fails, a runner without a reason to end keeps its instance. */
  lemma PassStopsNoOther(w: World, w': World, ix: Index, faults: Faults, now: Time, at: Time, r: string)
    requires Passed(w, w', ix, faults, now, at) && r in w.runners && !RunnerMustStop(w, r, now)
    ensures Get(w'.live, r) == Get(w.live, r)
    ensures r in w'.runners && w'.runners[r].data.state == Known(w.runners[r], Get(w.live, r), faults)
  {
    hide NextCell, SafeWorld, MustStop, RunnerMustStop, Known;
    CellOfRunner(w, ix, r, now);
    StoppedOnlyForAReason(CellAt(w, w.runners, ix, KeyOf(w, r)), faults, now, at);
    KeyHoldsItsRunner(w, ix, r);
  }

  /** In every store and whatever fails, an instance that a pass stopped is recorded as ending or ended. */
  lemma PassMarksWhatItStops(w: World, w': World, ix: Index, faults: Faults, now: Time, at: Time, r: string)
    requires Passed(w, w', ix, faults, now, at) && r in w.runners && Get(w'.live, r) != Get(w.live, r)
    ensures r in w'.runners && w'.runners[r].data.state in {RunnerTerminating, RunnerTerminated}
  {
    hide NextCell, SafeWorld;
    CellOfRunner(w, ix, r, now);
    StoppedIsMarked(CellAt(w, w.runners, ix, KeyOf(w, r)), faults, now, at);
    KeyHoldsItsRunner(w, ix, r);
  }

  /** The reaper alone: if nothing fails it ends exactly the runners that are due. */
  lemma ReapingEndsIff(w: World, w': World, ix: Index, now: Time, at: Time, r: string)
    requires Reaped(w, w', ix, {}, now, at) && r in w.runners
    ensures var d, due := w.runners[r].data, Due(w.runners[r].data.expiresAt, now);
      && r in w'.runners && w'.runners[r].data == (if due then d.(state := RunnerTerminated) else d)
      && Get(w'.live, r) == if due && d.state != RunnerTerminated then Ended(Get(w.live, r)) else Get(w.live, r)
  {
    hide SafeWorld, StopRunner;
    CellOfRunner(w, ix, r, now);
    var c := CellAt(w, w.runners, ix, KeyOf(w, r));
    KeyHoldsItsRunner(w, ix, r);
    if Reapable(c.seen.value, now) {
      CleanupEnds(c, Reap, at);
    }
  }

  lemma ReapingKeepsJobsAndLeases(w: World, w': World, ix: Index, faults: Faults, now: Time, at: Time)
    requires Reaped(w, w', ix, faults, now, at)
    ensures w'.jobs == w.jobs && w'.leases == w.leases
  {
    hide SafeWorld, StopRunner, Reapable, Find;
    SafeRanges(w, w');
    forall j | j in w.jobs ensures w'.jobs[j] == w.jobs[j] {
      assert CellAt(w', w'.runners, ix, ForJob(j)).job == CellAt(w, w.runners, ix, ForJob(j)).job;
    }
    forall l | l in w.leases ensures w'.leases[l] == w.leases[l] {
      LeaseIsKept(w, w', ix, faults, now, at, l);
    }
  }

  lemma LeaseIsKept(w: World, w': World, ix: Index, faults: Faults, now: Time, at: Time, l: string)
    requires Reaped(w, w', ix, faults, now, at) && l in w.leases
    ensures l in w'.leases && w'.leases[l] == w.leases[l]
  {
    hide StopRunner, Reapable;
    SafeRanges(w, w');
    hide SafeWorld;
    var k := ForJob(w.leases[l].data.jobID);
    assert CellAt(w', w'.runners, ix, k).lease == CellAt(w, w.runners, ix, k).lease;
  }

  lemma UndueRunnerIsKept(w: World, w': World, ix: Index, faults: Faults, now: Time, at: Time, r: string)
    requires Reaped(w, w', ix, faults, now, at) && r in w.runners && !Due(w.runners[r].data.expiresAt, now)
    ensures r in w'.runners && w'.runners[r] == w.runners[r] && Get(w'.live, r) == Get(w.live, r)
  {
    hide SafeWorld, ReapStep;
    CellOfRunner(w, ix, r, now);
    KeyHoldsItsRunner(w, ix, r);
    NotDueIsKept(CellAt(w, w.runners, ix, KeyOf(w, r)), faults, now, at);
  }

  /** And whatever fails it touches no job, no lease and no runner that is not due. */
  lemma ReapingTouchesNothingElse(w: World, w': World, ix: Index, faults: Faults, now: Time, at: Time)
    requires Reaped(w, w', ix, faults, now, at)
    ensures w'.jobs == w.jobs && w'.leases == w.leases
    ensures forall r | r in w.runners && !Due(w.runners[r].data.expiresAt, now) ::
      r in w'.runners && w'.runners[r] == w.runners[r] && Get(w'.live, r) == Get(w.live, r)
  {
    hide Reaped, Due;
    ReapingKeepsJobsAndLeases(w, w', ix, faults, now, at);
    forall r | r in w.runners && !Due(w.runners[r].data.expiresAt, now)
      ensures r in w'.runners && w'.runners[r] == w.runners[r] && Get(w'.live, r) == Get(w.live, r)
    {
      UndueRunnerIsKept(w, w', ix, faults, now, at, r);
    }
  }

  lemma NotDueIsKept(c: Cell, faults: Faults, now: Time, at: Time)
    requires ValidCell(c) && c.runner.Some? && !Due(c.runner.value.data.expiresAt, now)
    ensures Reread(ReapStep(c, faults, now, at)) == c
  {
  }
}
