/**
 One job's share of a reconciliation pass. A cell is a job, its lease, its runner and the provider's word on
 that runner; `seen` is the reconciler's in-memory copy of the runner, which falls behind the stored record
 when a cleanup fails half-way, so that a later conditional save of it is refused.
 */
module Cells {
  import opened Common
  import opened Records
  import opened Memory
  import opened Providers

  datatype Phase = Cleanup | Orphan | Reap

  /** The calls of one pass that can fail on their own, by call site and record id. */
  datatype Call =
    | ReadStatus(id: string)
    | SaveTruth(id: string)
    | RepairLease(id: string)
    | ExpireJob(id: string)
    | RepairJob(id: string)
    | MarkTerminating(phase: Phase, id: string)
    | StopInstance(phase: Phase, id: string)
    | MarkTerminated(phase: Phase, id: string)

  type Faults = set<Call>

  datatype Cell = Cell(
    job: Option<Job>, lease: Option<Lease>, runner: Option<Runner>, seen: Option<Runner>, live: Option<Status>)

  function RunnerStateOf(s: Status): RunnerState {
    match s
    case StatusProvisioning => RunnerProvisioning
    case StatusReady => RunnerReady
    case StatusBusy => RunnerBusy
    case StatusTerminating => RunnerTerminating
    case StatusTerminated => RunnerTerminated
    case StatusFailed => RunnerFailed
    case StatusUnknown => RunnerUnknown
  }

  /** What the provider says of a runner; a missing instance counts as terminated. */
  function Truth(live: Option<Status>): RunnerState {
    if live.None? then RunnerTerminated else RunnerStateOf(live.value)
  }

  function RunnerIn(r: Runner, s: RunnerState): Runner {
    r.(data := r.data.(state := s))
  }

  function JobIn(j: Job, s: JobState): Job {
    j.(data := j.data.(state := s))
  }

  function LeaseIn(l: Lease, s: LeaseState): Lease {
    l.(data := l.data.(state := s))
  }

  /** A conditional save of `v` at its own revision: the new row, or None if it was refused or failed. */
  function Saving<B>(stored: Option<Record<B>>, v: Record<B>, fail: bool, at: Time): Option<Record<B>> {
    if fail then None
    else match SavedRow(stored, v, v.revision, at) case Ok(row) => Some(row) case Err(_) => None
  }

  // ---------------------------------------------------------------- the five loops, for one cell

  function TruthStep(c: Cell, faults: Faults, at: Time): Cell {
    if c.seen.None? || c.seen.value.data.state == RunnerTerminated then c
    else
      var r := c.seen.value;
      if ReadStatus(r.id) in faults || Truth(c.live) == r.data.state then c
      else
        var row := Saving(c.runner, RunnerIn(r, Truth(c.live)), SaveTruth(r.id) in faults, at);
        if row.Some? then c.(runner := row, seen := row) else c
  }

  /** runnerByID[lease.RunnerID] */
  function Leased(lease: Lease, seen: Option<Runner>): Option<Runner> {
    if seen.Some? && seen.value.id == lease.data.runnerID then seen else None
  }

  function LeaseTarget(lease: Lease, job: Option<Job>, runner: Option<Runner>, now: Time): LeaseState {
    var s := lease.data.state;
    if job.None? || runner.None? then
      if s != LeaseTerminated && s != LeaseFailed then LeaseFailed else s
    else if Due(lease.data.expiresAt, now) then LeaseTerminated
    else if TerminalJob(job.value.data.state) then LeaseTerminated
    else match runner.value.data.state
      case RunnerTerminated => LeaseTerminated
      case RunnerFailed => LeaseFailed
      case RunnerUnknown => LeaseFailed
      case _ => if s == LeasePending then LeaseActive else s
  }

  function LeaseStep(c: Cell, faults: Faults, now: Time, at: Time): Cell {
    if c.lease.None? then c
    else
      var l := c.lease.value;
      var target := LeaseTarget(l, c.job, Leased(l, c.seen), now);
      if target == l.data.state then c
      else
        var row := Saving(c.lease, LeaseIn(l, target), RepairLease(l.id) in faults, at);
        if row.Some? then c.(lease := row) else c
  }

  /** The runner a terminal job must give up: its lease's, or without a lease the one that names the job. */
  function Cleaned(c: Cell): Option<Runner> {
    if c.lease.Some? then Leased(c.lease.value, c.seen) else c.seen
  }

  function JobTarget(job: Job, lease: Option<Lease>, seen: Option<Runner>): JobState {
    var s := job.data.state;
    if lease.None? then
      if s == JobAssigned || s == JobRunning then JobFailed else s
    else if lease.value.data.state in {LeaseTerminated, LeaseFailed, LeaseCancelled, LeaseCompleted} then JobFailed
    else
      var runner := Leased(lease.value, seen);
      if runner.None? then JobFailed
      else match runner.value.data.state
        case RunnerTerminated => JobFailed
        case RunnerFailed => JobFailed
        case RunnerUnknown => JobFailed
        case RunnerBusy => if s in {JobQueued, JobProvisioning, JobAssigned} then JobRunning else s
        case RunnerReady => if s in {JobQueued, JobProvisioning} then JobAssigned else s
        case _ => s
  }

  /** How far stopping a runner came: the stored row, the instance, the last copy saved, and success. */
  datatype Stopped = Stopped(runner: Option<Runner>, live: Option<Status>, last: Runner, ok: bool)

  /** Mark terminating, terminate at the provider, mark terminated: terminateRunner and the reaper's body. */
  function StopRunner(stored: Option<Runner>, live: Option<Status>, r: Runner, phase: Phase, faults: Faults,
      at: Time): Stopped {
    var marked :=
      if r.data.state == RunnerTerminating then Some(r)
      else Saving(stored, RunnerIn(r, RunnerTerminating), MarkTerminating(phase, r.id) in faults, at);
    if marked.None? then Stopped(stored, live, r, false)
    else
      var now := if r.data.state == RunnerTerminating then stored else marked;
      if StopInstance(phase, r.id) in faults then Stopped(now, live, marked.value, false)
      else
        var row := Saving(now, RunnerIn(marked.value, RunnerTerminated), MarkTerminated(phase, r.id) in faults, at);
        if row.None? then Stopped(now, Ended(live), marked.value, false)
        else Stopped(row, Ended(live), row.value, true)
  }

  /** The loops over terminal jobs and orphans keep their old copy of the runner unless all of it worked. */
  function CleanupStep(c: Cell, phase: Phase, faults: Faults, at: Time): Cell
    requires c.seen.Some?
  {
    var s := StopRunner(c.runner, c.live, c.seen.value, phase, faults, at);
    c.(runner := s.runner, live := s.live, seen := if s.ok then Some(s.last) else c.seen)
  }

  function SettleJob(c: Cell, faults: Faults, at: Time): Cell
    requires c.job.Some?
  {
    var j := c.job.value;
    if TerminalJob(j.data.state) then
      var r := Cleaned(c);
      if r.Some? && r.value.data.state != RunnerTerminated then CleanupStep(c, Cleanup, faults, at) else c
    else
      var target := JobTarget(j, c.lease, c.seen);
      if target == j.data.state then c
      else
        var row := Saving(c.job, JobIn(j, target), RepairJob(j.id) in faults, at);
        if row.Some? then c.(job := row) else c
  }

  function JobStep(c: Cell, faults: Faults, now: Time, at: Time): Cell {
    if c.job.None? then c
    else
      var j := c.job.value;
      if !TerminalJob(j.data.state) && Due(j.data.expiresAt, now) then
        var row := Saving(c.job, JobIn(j, JobFailed), ExpireJob(j.id) in faults, at);
        if row.None? then c else SettleJob(c.(job := row), faults, at)
      else SettleJob(c, faults, at)
  }

  predicate Orphaned(c: Cell) {
    c.seen.Some? && c.seen.value.data.jobID != "" && c.seen.value.data.state != RunnerTerminated && c.job.None?
  }

  function OrphanStep(c: Cell, faults: Faults, at: Time): Cell {
    if Orphaned(c) then CleanupStep(c, Orphan, faults, at) else c
  }

  predicate Reapable(r: Runner, now: Time) {
    Due(r.data.expiresAt, now) && r.data.state != RunnerTerminated
  }

  /** Unlike the cleanups, the reaper remembers every save that worked. */
  function ReapStep(c: Cell, faults: Faults, now: Time, at: Time): Cell {
    if c.seen.Some? && Reapable(c.seen.value, now) then
      var s := StopRunner(c.runner, c.live, c.seen.value, Reap, faults, at);
      c.(runner := s.runner, live := s.live, seen := Some(s.last))
    else c
  }

  function CellPass(c: Cell, faults: Faults, now: Time, at: Time): Cell {
    ReapStep(OrphanStep(JobStep(LeaseStep(TruthStep(c, faults, at), faults, now, at), faults, now, at), faults, at),
      faults, now, at)
  }

  /** The next pass reads everything afresh. */
  function Reread(c: Cell): Cell {
    c.(seen := c.runner)
  }

  function NextCell(c: Cell, faults: Faults, now: Time, at: Time): Cell {
    Reread(CellPass(c, faults, now, at))
  }

  // ---------------------------------------------------------------- convergence

  predicate ValidRow<B>(r: Option<Record<B>>) {
    r.Some? ==> r.value.id != "" && r.value.revision >= 1
  }

  predicate ValidCell(c: Cell) {
    ValidRow(c.job) && ValidRow(c.lease) && ValidRow(c.runner) && c.seen == c.runner
  }

  predicate RunnerSettled(c: Cell, now: Time) {
    c.seen.Some? ==>
      var r := c.seen.value;
      (r.data.state == RunnerTerminated || r.data.state == Truth(c.live)) && !Reapable(r, now) && !Orphaned(c)
  }

  predicate LeaseSettled(c: Cell, now: Time) {
    c.lease.Some? ==>
      LeaseTarget(c.lease.value, c.job, Leased(c.lease.value, c.seen), now) == c.lease.value.data.state
  }

  /** Nothing is left to do: the state in which a pass saves nothing and calls no Terminate. */
  predicate Quiet(c: Cell, now: Time) {
    && RunnerSettled(c, now)
    && LeaseSettled(c, now)
    && (c.job.Some? ==>
      var j := c.job.value;
      if TerminalJob(j.data.state) then Cleaned(c).Some? ==> Cleaned(c).value.data.state == RunnerTerminated
      else !Due(j.data.expiresAt, now) && JobTarget(j, c.lease, c.seen) == j.data.state)
  }

  /**
   What the first error-free pass achieves. A job that it failed still waits for its cleanup, and a runner
   that it reaped still has to fail its lease and its job; all other repairs are done.
   */
  predicate HalfSettled(c: Cell, now: Time) {
    && RunnerSettled(c, now)
    && (c.job.None? ==> LeaseSettled(c, now))
    && (c.job.Some? && !TerminalJob(c.job.value.data.state) ==>
      && !Due(c.job.value.data.expiresAt, now)
      && (c.lease.Some? ==> Leased(c.lease.value, c.seen).Some?)
      && var reaped := c.seen.Some? && c.seen.value.data.state == RunnerTerminated;
        reaped || (LeaseSettled(c, now) && JobTarget(c.job.value, c.lease, c.seen) == c.job.value.data.state))
  }

  lemma StopWithoutFaults(stored: Runner, live: Option<Status>, phase: Phase, at: Time)
    requires stored.id != ""
    ensures var s := StopRunner(Some(stored), live, stored, phase, {}, at);
      && s.ok && s.runner == Some(s.last) && s.live == Ended(live)
      && s.last.data == stored.data.(state := RunnerTerminated) && s.last.id == stored.id
      && s.last.revision > stored.revision
  {
  }

  /** Between two cells at most the runner's state and stamps differ. */
  predicate SameRunner(c: Cell, d: Cell) {
    && c.runner.Some? == d.runner.Some?
    && (c.runner.Some? ==>
      && c.runner.value.id == d.runner.value.id
      && d.runner.value.data == c.runner.value.data.(state := d.runner.value.data.state))
  }

  predicate RunnerTrue(c: Cell) {
    c.seen.Some? ==> c.seen.value.data.state == RunnerTerminated || c.seen.value.data.state == Truth(c.live)
  }

  predicate RunnerOver(c: Cell) {
    c.seen.Some? && c.seen.value.data.state == RunnerTerminated
  }

  lemma TruthWithoutFaults(c: Cell, at: Time)
    requires ValidCell(c)
    ensures var d := TruthStep(c, {}, at);
      ValidCell(d) && RunnerTrue(d) && SameRunner(c, d) && d == c.(runner := d.runner, seen := d.runner)
      && (RunnerTrue(c) ==> d == c)
  {
  }

  lemma LeaseWithoutFaults(c: Cell, now: Time, at: Time)
    requires ValidCell(c)
    ensures var d := LeaseStep(c, {}, now, at);
      ValidCell(d) && LeaseSettled(d, now) && d == c.(lease := d.lease) && c.lease.Some? == d.lease.Some?
      && (c.lease.Some? ==> d.lease.value.data.runnerID == c.lease.value.data.runnerID)
  {
  }

  lemma CleanupWithoutFaults(c: Cell, phase: Phase, at: Time)
    requires ValidCell(c) && c.seen.Some?
    ensures var d := CleanupStep(c, phase, {}, at);
      ValidCell(d) && SameRunner(c, d) && RunnerOver(d) && d == c.(runner := d.runner, seen := d.runner, live := d.live)
  {
    StopWithoutFaults(c.runner.value, c.live, phase, at);
  }

  lemma JobWithoutFaults(c: Cell, now: Time, at: Time)
    requires ValidCell(c) && RunnerTrue(c)
    ensures var d := JobStep(c, {}, now, at);
      && ValidCell(d) && RunnerTrue(d) && SameRunner(c, d) && d.lease == c.lease && d.job.Some? == c.job.Some?
      && (c.job.None? ==> d == c)
      && (c.job.Some? && TerminalJob(c.job.value.data.state) ==>
        && d.job == c.job
        && (Cleaned(d).Some? ==> RunnerOver(d)))
      && (c.job.Some? && !TerminalJob(c.job.value.data.state) ==>
        var expired := Due(c.job.value.data.expiresAt, now);
        && d.job.value.data ==
          c.job.value.data.(state := if expired then JobFailed else JobTarget(c.job.value, c.lease, c.seen))
        && (!expired ==> d == c.(job := d.job)))
  {
    if c.job.Some? {
      var j := c.job.value;
      var expired := !TerminalJob(j.data.state) && Due(j.data.expiresAt, now);
      var e := if expired then c.(job := Saving(c.job, JobIn(j, JobFailed), false, at)) else c;
      if TerminalJob(e.job.value.data.state) && Cleaned(e).Some? {
        CleanupWithoutFaults(e, Cleanup, at);
      }
    }
  }

  lemma LateStepsWithoutFaults(c: Cell, now: Time, at: Time)
    requires ValidCell(c) && RunnerTrue(c)
    ensures var d := ReapStep(OrphanStep(c, {}, at), {}, now, at);
      && ValidCell(d) && RunnerSettled(d, now) && SameRunner(c, d)
      && d == c.(runner := d.runner, seen := d.runner, live := d.live)
      && (d == c || RunnerOver(d))
      && (RunnerSettled(c, now) ==> d == c)
  {
    if c.seen.Some? {
      CleanupWithoutFaults(c, Orphan, at);
      StopWithoutFaults(c.runner.value, c.live, Reap, at);
    }
  }

  /** Targets are reached in one step: aiming again from the target changes nothing. */
  lemma TargetsAreStable(j: Job, lease: Option<Lease>, seen: Option<Runner>)
    requires !TerminalJob(j.data.state) && !TerminalJob(JobTarget(j, lease, seen))
    ensures forall k: Job | k.data == j.data.(state := JobTarget(j, lease, seen)) ::
      JobTarget(k, lease, seen) == k.data.state
  {
  }

  lemma FirstPass(c: Cell, now: Time, at: Time)
    requires ValidCell(c)
    ensures var d := NextCell(c, {}, now, at); ValidCell(d) && HalfSettled(d, now)
  {
    var c1 := TruthStep(c, {}, at);
    TruthWithoutFaults(c, at);
    var c2 := LeaseStep(c1, {}, now, at);
    LeaseWithoutFaults(c1, now, at);
    var c3 := JobStep(c2, {}, now, at);
    JobWithoutFaults(c2, now, at);
    LateStepsWithoutFaults(c3, now, at);
    if c2.job.Some? && !TerminalJob(c2.job.value.data.state) && !TerminalJob(c3.job.value.data.state) {
      TargetsAreStable(c2.job.value, c2.lease, c2.seen);
    }
  }

  lemma SecondPass(c: Cell, now: Time, at: Time)
    requires ValidCell(c) && HalfSettled(c, now)
    ensures var d := NextCell(c, {}, now, at); ValidCell(d) && Quiet(d, now)
  {
    TruthWithoutFaults(c, at);
    var c2 := LeaseStep(c, {}, now, at);
    LeaseWithoutFaults(c, now, at);
    var c3 := JobStep(c2, {}, now, at);
    JobWithoutFaults(c2, now, at);
    LateStepsWithoutFaults(c3, now, at);
  }

  /** A quiet cell is left alone, whatever fails. */
  lemma QuietStays(c: Cell, faults: Faults, now: Time, at: Time)
    requires ValidCell(c) && Quiet(c, now)
    ensures NextCell(c, faults, now, at) == c
  {
  }

  // ---------------------------------------------------------------- safety

  /** A runner keeps its identity; terminated is final and is only written once the instance is gone. */
  predicate SafeRunner(r: Runner, live: Option<Status>, r': Runner, live': Option<Status>) {
    && r'.id == r.id && r'.data == r.data.(state := r'.data.state) && r.revision <= r'.revision
    && (r.data.state == RunnerTerminated ==> r' == r)
    && (r.data.state != RunnerTerminated && r'.data.state == RunnerTerminated ==> Gone(live'))
    && (live' == live || live' == Ended(live))
  }

  predicate SafeJob(j: Job, j': Job) {
    && j'.id == j.id && j'.data == j.data.(state := j'.data.state) && j.revision <= j'.revision
    && (TerminalJob(j.data.state) ==> j' == j)
  }

  predicate SafeLease(l: Lease, l': Lease) {
    l'.id == l.id && l'.data == l.data.(state := l'.data.state) && l.revision <= l'.revision
  }

  /** The reconciler's copy of a runner is never ahead of the store, and is the store's row if its revision is. */
  predicate Fresh(v: Runner, stored: Runner) {
    && v.id == stored.id && v.data == stored.data.(state := v.data.state)
    && v.revision <= stored.revision && (v.revision == stored.revision ==> v == stored)
  }

  predicate SafeCell(c: Cell, d: Cell)
    requires c.runner.Some?
  {
    && d.runner.Some? && d.seen.Some? && d.job == c.job && d.lease == c.lease
    && SafeRunner(c.runner.value, c.live, d.runner.value, d.live) && Fresh(d.seen.value, d.runner.value)
  }

  lemma TruthIsSafe(c: Cell, faults: Faults, at: Time)
    requires c.runner.Some? && c.seen.Some? && Fresh(c.seen.value, c.runner.value)
    ensures SafeCell(c, TruthStep(c, faults, at))
  {
  }

  lemma StopIsSafe(stored: Runner, live: Option<Status>, r: Runner, phase: Phase, faults: Faults, at: Time)
    requires Fresh(r, stored) && r.data.state != RunnerTerminated
    ensures var s := StopRunner(Some(stored), live, r, phase, faults, at);
      && s.runner.Some? && SafeRunner(stored, live, s.runner.value, s.live)
      && Fresh(s.last, s.runner.value) && Fresh(r, s.runner.value)
  {
  }

  lemma JobIsSafe(c: Cell, faults: Faults, now: Time, at: Time)
    requires c.job.Some? && (c.seen.Some? ==> c.runner.Some? && Fresh(c.seen.value, c.runner.value))
    ensures var d := JobStep(c, faults, now, at);
      && d.job.Some? && SafeJob(c.job.value, d.job.value) && d.lease == c.lease
      && (c.seen.Some? ==> d.seen.Some? && SafeCell(c.(job := d.job), d))
      && (c.seen.None? ==> d == c.(job := d.job))
  {
    hide StopRunner, JobTarget;
    if c.seen.Some? && c.seen.value.data.state != RunnerTerminated {
      StopIsSafe(c.runner.value, c.live, c.seen.value, Cleanup, faults, at);
    }
  }

  /** A job step looks no further than the runner it would clean: dropping another runner changes nothing. */
  lemma JobStepIsLocal(full: Cell, faults: Faults, now: Time, at: Time)
    requires full.job.Some? && Cleaned(full).None?
    ensures JobStep(full, faults, now, at)
      == full.(job := JobStep(full.(runner := None, seen := None, live := None), faults, now, at).job)
  {
  }

  // ---------------------------------------------------------------- isolation

  /** The calls a pass makes on behalf of one cell. */
  predicate Concerns(call: Call, c: Cell) {
    var runner := c.runner.Some? && c.runner.value.id == call.id;
    match call
    case RepairLease(id) => c.lease.Some? && c.lease.value.id == id
    case ExpireJob(id) => c.job.Some? && c.job.value.id == id
    case RepairJob(id) => c.job.Some? && c.job.value.id == id
    case _ => runner
  }

  ghost predicate AgreeOn(f: Faults, g: Faults, c: Cell) {
    forall call | Concerns(call, c) :: call in f <==> call in g
  }

  lemma OwnCallAgrees(f: Faults, g: Faults, c: Cell, call: Call)
    requires AgreeOn(f, g, c) && Concerns(call, c)
    ensures call in f <==> call in g
  {
  }

  predicate SameNames(c: Cell, d: Cell) {
    && c.job.Some? == d.job.Some? && (c.job.Some? ==> c.job.value.id == d.job.value.id)
    && c.lease.Some? == d.lease.Some? && (c.lease.Some? ==> c.lease.value.id == d.lease.value.id)
    && c.runner.Some? == d.runner.Some? && (c.runner.Some? ==> c.runner.value.id == d.runner.value.id)
    && c.seen.Some? == d.seen.Some? && (c.seen.Some? ==> c.seen.value.id == d.seen.value.id)
  }

  predicate SeenIsRunner(c: Cell) {
    c.seen.Some? ==> c.runner.Some? && c.seen.value.id == c.runner.value.id
  }

  lemma AgreementCarries(f: Faults, g: Faults, c: Cell, d: Cell)
    requires AgreeOn(f, g, c) && SameNames(c, d)
    ensures AgreeOn(f, g, d)
  {
    forall call | Concerns(call, d) ensures call in f <==> call in g {
      assert Concerns(call, c);
    }
  }

  lemma StopAgrees(f: Faults, g: Faults, c: Cell, phase: Phase, at: Time)
    requires AgreeOn(f, g, c) && c.seen.Some? && SeenIsRunner(c)
    ensures StopRunner(c.runner, c.live, c.seen.value, phase, f, at) ==
      StopRunner(c.runner, c.live, c.seen.value, phase, g, at)
    ensures var s := StopRunner(c.runner, c.live, c.seen.value, phase, f, at);
      s.runner.Some? && s.runner.value.id == c.runner.value.id && s.last.id == c.seen.value.id
  {
    var id := c.seen.value.id;
    assert Concerns(MarkTerminating(phase, id), c) && Concerns(StopInstance(phase, id), c) &&
      Concerns(MarkTerminated(phase, id), c);
  }

  lemma EarlyStepsAgree(f: Faults, g: Faults, c: Cell, now: Time, at: Time)
    requires AgreeOn(f, g, c) && SeenIsRunner(c)
    ensures TruthStep(c, f, at) == TruthStep(c, g, at) && LeaseStep(c, f, now, at) == LeaseStep(c, g, now, at)
    ensures SameNames(c, TruthStep(c, f, at)) && SameNames(c, LeaseStep(c, f, now, at))
  {
    if c.seen.Some? {
      assert Concerns(ReadStatus(c.seen.value.id), c) && Concerns(SaveTruth(c.seen.value.id), c);
    }
    if c.lease.Some? {
      assert Concerns(RepairLease(c.lease.value.id), c);
    }
  }

  lemma JobStepAgrees(f: Faults, g: Faults, c: Cell, now: Time, at: Time)
    requires AgreeOn(f, g, c) && SeenIsRunner(c)
    ensures JobStep(c, f, now, at) == JobStep(c, g, now, at) && SameNames(c, JobStep(c, f, now, at))
  {
    hide StopRunner, JobTarget, AgreeOn;
    if c.job.Some? {
      OwnCallAgrees(f, g, c, ExpireJob(c.job.value.id));
      OwnCallAgrees(f, g, c, RepairJob(c.job.value.id));
    }
    if c.seen.Some? {
      StopAgrees(f, g, c, Cleanup, at);
    }
  }

  lemma LateStepsAgree(f: Faults, g: Faults, c: Cell, now: Time, at: Time)
    requires AgreeOn(f, g, c) && SeenIsRunner(c)
    ensures OrphanStep(c, f, at) == OrphanStep(c, g, at) && ReapStep(c, f, now, at) == ReapStep(c, g, now, at)
    ensures SameNames(c, OrphanStep(c, f, at))
  {
    hide StopRunner;
    if c.seen.Some? {
      StopAgrees(f, g, c, Orphan, at);
      StopAgrees(f, g, c, Reap, at);
    }
  }

  /** What a pass makes of a cell depends on the cell and on the failures of its own calls, on nothing else. */
  lemma OnlyOwnFaultsMatter(f: Faults, g: Faults, c: Cell, now: Time, at: Time)
    requires AgreeOn(f, g, c) && SeenIsRunner(c)
    ensures NextCell(c, f, now, at) == NextCell(c, g, now, at)
  {
    hide TruthStep, LeaseStep, JobStep, OrphanStep, ReapStep, AgreeOn;
    EarlyStepsAgree(f, g, c, now, at);
    var c1 := TruthStep(c, f, at);
    AgreementCarries(f, g, c, c1);
    EarlyStepsAgree(f, g, c1, now, at);
    var c2 := LeaseStep(c1, f, now, at);
    AgreementCarries(f, g, c1, c2);
    JobStepAgrees(f, g, c2, now, at);
    var c3 := JobStep(c2, f, now, at);
    AgreementCarries(f, g, c2, c3);
    LateStepsAgree(f, g, c3, now, at);
    var c4 := OrphanStep(c3, f, at);
    AgreementCarries(f, g, c3, c4);
    LateStepsAgree(f, g, c4, now, at);
  }
}
