/** What whole reconciliation passes, and runs of them, achieve. */
module Passes {
  import opened Common
  import opened Records
  import opened Memory
  import opened Providers
  import opened Cells
  import opened Reconciling

  // ---------------------------------------------------------------- which stores have independent components

  /** One lease per job, one runner per job, and a lease's runner carries the lease's job. */
  ghost predicate Wellformed(w: World) {
    && ValidWorld(w)
    && (forall l, m | l in w.leases && m in w.leases && w.leases[l].data.jobID == w.leases[m].data.jobID :: l == m)
    && (forall r, s | r in w.runners && s in w.runners
        && w.runners[r].data.jobID == w.runners[s].data.jobID && w.runners[r].data.jobID != "" :: r == s)
    && (forall l | l in w.leases && w.leases[l].data.runnerID in w.runners ::
      w.runners[w.leases[l].data.runnerID].data.jobID == w.leases[l].data.jobID)
  }

  /** A record that names the job. */
  ghost function Naming<B>(t: Table<B>, jobOf: B -> string, j: string): (id: string)
    requires exists id :: id in t && jobOf(t[id].data) == j
    ensures id in t && jobOf(t[id].data) == j
  {
    var id :| id in t && jobOf(t[id].data) == j;
    id
  }

  lemma WellformedIsIndexed(w: World) returns (ix: Index)
    requires Wellformed(w)
    ensures Indexed(w, ix)
  {
    var owners := set r | r in w.runners && w.runners[r].data.jobID != "" :: w.runners[r].data.jobID;
    var leased := set l | l in w.leases :: w.leases[l].data.jobID;
    ix := Index(
      map j | j in owners :: Naming(w.runners, (d: RunnerData) => d.jobID, j),
      map j | j in leased :: Naming(w.leases, (d: LeaseData) => d.jobID, j),
      set r | r in w.runners && w.runners[r].data.jobID == "");
    forall r | r in w.runners && w.runners[r].data.jobID != ""
      ensures w.runners[r].data.jobID in ix.runnerOf && ix.runnerOf[w.runners[r].data.jobID] == r
    {
      assert w.runners[r].data.jobID in owners;
    }
    forall l | l in w.leases ensures w.leases[l].data.jobID in ix.leaseOf && ix.leaseOf[w.leases[l].data.jobID] == l {
      assert w.leases[l].data.jobID in leased;
    }
  }

  // ---------------------------------------------------------------- determinism and isolation

  lemma CellDeterminesRunner(w: World, a: World, b: World, ix: Index, r: string)
    requires Indexed(w, ix) && SafeWorld(w, a) && SafeWorld(w, b) && r in w.runners
    requires CellAt(a, a.runners, ix, KeyOf(w, r)) == CellAt(b, b.runners, ix, KeyOf(w, r))
    ensures a.runners[r] == b.runners[r] && Get(a.live, r) == Get(b.live, r)
  {
    KeyHoldsItsRunner(w, ix, r);
  }

  lemma CellDeterminesLease(w: World, a: World, b: World, ix: Index, l: string)
    requires Indexed(w, ix) && SafeWorld(w, a) && SafeWorld(w, b) && l in w.leases
    requires var k := ForJob(w.leases[l].data.jobID); CellAt(a, a.runners, ix, k) == CellAt(b, b.runners, ix, k)
    ensures a.leases[l] == b.leases[l]
  {
  }

  lemma SameLookupsSameMap<V>(m: map<string, V>, n: map<string, V>)
    requires forall k :: Get(m, k) == Get(n, k)
    ensures m == n
  {
    assert forall k :: k in m <==> Get(m, k).Some?;
    assert forall k :: k in n <==> Get(n, k).Some?;
    assert forall k | k in m :: Some(m[k]) == Get(n, k);
  }

  lemma SafeRanges(w: World, a: World)
    requires SafeWorld(w, a)
    ensures a.jobs.Keys == w.jobs.Keys && a.runners.Keys == w.runners.Keys && a.leases.Keys == w.leases.Keys
    ensures forall r | r !in w.runners :: Get(a.live, r) == Get(w.live, r)
  {
  }

  lemma CellsDetermineWorld(w: World, a: World, b: World, ix: Index)
    requires Indexed(w, ix) && SafeWorld(w, a) && SafeWorld(w, b)
    requires forall k :: CellAt(a, a.runners, ix, k) == CellAt(b, b.runners, ix, k)
    ensures a == b
  {
    hide SafeWorld, Indexed;
    SafeRanges(w, a);
    SafeRanges(w, b);
    forall r ensures Get(a.runners, r) == Get(b.runners, r) && Get(a.live, r) == Get(b.live, r) {
      if r in w.runners {
        CellDeterminesRunner(w, a, b, ix, r);
      }
    }
    forall j ensures Get(a.jobs, j) == Get(b.jobs, j) {
      assert CellAt(a, a.runners, ix, ForJob(j)).job == CellAt(b, b.runners, ix, ForJob(j)).job;
    }
    forall l ensures Get(a.leases, l) == Get(b.leases, l) {
      if l in w.leases {
        CellDeterminesLease(w, a, b, ix, l);
      }
    }
    SameLookupsSameMap(a.runners, b.runners);
    SameLookupsSameMap(a.live, b.live);
    SameLookupsSameMap(a.jobs, b.jobs);
    SameLookupsSameMap(a.leases, b.leases);
  }

  /** With the same failures every iteration order of the five loops ends in the same store and cloud. */
  lemma OrderIsInvisible(w: World, a: World, b: World, ix: Index, faults: Faults, now: Time, at: Time)
    requires Passed(w, a, ix, faults, now, at) && Passed(w, b, ix, faults, now, at)
    ensures a == b
  {
    hide SafeWorld, Indexed, NextCell;
    CellsDetermineWorld(w, a, b, ix);
  }

  /**
   A component ends the same in two passes over two stores that may differ in every other record and every
   other failure, if it started the same and the same calls of its own failed.
   */
  lemma ComponentsAreIndependent(
    w: World, w': World, f: Faults, v: World, v': World, g: Faults, ix: Index, iy: Index, k: Key, now: Time, at: Time)
    requires Passed(w, w', ix, f, now, at) && Passed(v, v', iy, g, now, at)
    requires CellAt(w, w.runners, ix, k) == CellAt(v, v.runners, iy, k)
    requires AgreeOn(f, g, CellAt(w, w.runners, ix, k))
    ensures CellAt(w', w'.runners, ix, k) == CellAt(v', v'.runners, iy, k)
  {
    OnlyOwnFaultsMatter(f, g, CellAt(w, w.runners, ix, k), now, at);
  }

  // ---------------------------------------------------------------- convergence

  lemma IndexedCellsAreValid(w: World, ix: Index, k: Key)
    requires Indexed(w, ix)
    ensures ValidCell(CellAt(w, w.runners, ix, k))
  {
  }

  lemma AfterTwoPasses(w0: World, w1: World, w2: World, ix: Index, now: Time, at0: Time, at1: Time, k: Key)
    requires Passed(w0, w1, ix, {}, now, at0) && Passed(w1, w2, ix, {}, now, at1)
    ensures Quiet(CellAt(w2, w2.runners, ix, k), now) && ValidCell(CellAt(w2, w2.runners, ix, k))
  {
    hide SafeWorld, NextCell, Quiet, HalfSettled;
    IndexedCellsAreValid(w0, ix, k);
    FirstPass(CellAt(w0, w0.runners, ix, k), now, at0);
    SecondPass(CellAt(w1, w1.runners, ix, k), now, at1);
  }

  /** A third pass changes nothing, no matter what fails in it: no save, no call that alters the cloud. */
  lemma TwoPassesReachAFixpoint(
    w0: World, w1: World, w2: World, w3: World, ix: Index, faults: Faults, now: Time, at0: Time, at1: Time, at2: Time)
    requires Passed(w0, w1, ix, {}, now, at0) && Passed(w1, w2, ix, {}, now, at1)
    requires Passed(w2, w3, ix, faults, now, at2)
    ensures w3 == w2
  {
    hide SafeWorld, Indexed, Quiet, ValidCell, NextCell;
    forall k: Key ensures CellAt(w3, w3.runners, ix, k) == CellAt(w2, w2.runners, ix, k) {
      AfterTwoPasses(w0, w1, w2, ix, now, at0, at1, k);
      QuietStays(CellAt(w2, w2.runners, ix, k), faults, now, at2);
    }
    StandingStillIsSafe(w1, w2);
    CellsDetermineWorld(w2, w3, w2, ix);
  }

  lemma StandingStillIsSafe(v: World, w: World)
    requires SafeWorld(v, w)
    ensures SafeWorld(w, w)
  {
  }

  /** A record says terminated only of an instance that is gone. */
  ghost predicate Truthful(w: World) {
    forall r | r in w.runners && w.runners[r].data.state == RunnerTerminated :: Gone(Get(w.live, r))
  }

  lemma SafeKeepsTruth(w: World, w': World)
    requires SafeWorld(w, w') && Truthful(w)
    ensures Truthful(w')
  {
    assert forall r | r in w.runners :: SafeRunner(w.runners[r], Get(w.live, r), w'.runners[r], Get(w'.live, r));
  }

  predicate Over(w: World, r: string) {
    r in w.runners ==> w.runners[r].data.state == RunnerTerminated && Gone(Get(w.live, r))
  }

  lemma QuietRunnerIsOver(w: World, ix: Index, now: Time, r: string)
    requires Indexed(w, ix) && Truthful(w) && r in w.runners && Quiet(CellAt(w, w.runners, ix, KeyOf(w, r)), now)
    ensures var j := w.runners[r].data.jobID;
      (j != "" && j !in w.jobs) || Due(w.runners[r].data.expiresAt, now) ==> Over(w, r)
  {
    KeyHoldsItsRunner(w, ix, r);
  }

  lemma QuietJobIsOver(w: World, ix: Index, now: Time, r: string)
    requires Indexed(w, ix) && Truthful(w) && r in w.runners && w.runners[r].data.jobID in w.jobs
    requires Quiet(CellAt(w, w.runners, ix, ForJob(w.runners[r].data.jobID)), now)
    requires TerminalJob(w.jobs[w.runners[r].data.jobID].data.state)
    requires forall l | l in w.leases :: w.leases[l].data.jobID != w.runners[r].data.jobID
    ensures Over(w, r)
  {
    KeyHoldsItsRunner(w, ix, r);
  }

  lemma QuietLeaseIsOver(w: World, ix: Index, now: Time, l: string)
    requires Indexed(w, ix) && Truthful(w) && l in w.leases
    requires Quiet(CellAt(w, w.runners, ix, ForJob(w.leases[l].data.jobID)), now)
    requires w.leases[l].data.jobID in w.jobs && TerminalJob(w.jobs[w.leases[l].data.jobID].data.state)
    ensures Over(w, w.leases[l].data.runnerID)
  {
    var k, r := ForJob(w.leases[l].data.jobID), w.leases[l].data.runnerID;
    assert CellAt(w, w.runners, ix, k).lease == Some(w.leases[l]);
    if r in w.runners {
      assert KeyOf(w, r) == k;
      KeyHoldsItsRunner(w, ix, r);
    }
  }

  /** After two error-free passes nothing that should be gone is left, in the store or in the cloud. */
  lemma TwoPassesLeaveNoLeaks(w0: World, w1: World, w2: World, ix: Index, now: Time, at0: Time, at1: Time)
    requires Truthful(w0) && Passed(w0, w1, ix, {}, now, at0) && Passed(w1, w2, ix, {}, now, at1)
    ensures forall l | l in w2.leases && w2.leases[l].data.jobID in w2.jobs
      && TerminalJob(w2.jobs[w2.leases[l].data.jobID].data.state) :: Over(w2, w2.leases[l].data.runnerID)
    ensures forall r | r in w2.runners && w2.runners[r].data.jobID in w2.jobs
      && TerminalJob(w2.jobs[w2.runners[r].data.jobID].data.state)
      && (forall l | l in w2.leases :: w2.leases[l].data.jobID != w2.runners[r].data.jobID) :: Over(w2, r)
    ensures forall r | r in w2.runners && w2.runners[r].data.jobID != "" && w2.runners[r].data.jobID !in w2.jobs ::
      Over(w2, r)
    ensures forall r | r in w2.runners && Due(w2.runners[r].data.expiresAt, now) :: Over(w2, r)
  {
    hide SafeWorld, NextCell, Indexed, Quiet, Over, Truthful;
    SafeKeepsTruth(w0, w1);
    SafeKeepsTruth(w1, w2);
    forall r | r in w2.runners
      ensures var j := w2.runners[r].data.jobID;
        (j != "" && j !in w2.jobs) || Due(w2.runners[r].data.expiresAt, now) ==> Over(w2, r)
    {
      AfterTwoPasses(w0, w1, w2, ix, now, at0, at1, KeyOf(w2, r));
      QuietRunnerIsOver(w2, ix, now, r);
    }
    forall l | l in w2.leases && w2.leases[l].data.jobID in w2.jobs
      && TerminalJob(w2.jobs[w2.leases[l].data.jobID].data.state)
      ensures Over(w2, w2.leases[l].data.runnerID)
    {
      AfterTwoPasses(w0, w1, w2, ix, now, at0, at1, ForJob(w2.leases[l].data.jobID));
      QuietLeaseIsOver(w2, ix, now, l);
    }
    forall r | r in w2.runners && w2.runners[r].data.jobID in w2.jobs
      && TerminalJob(w2.jobs[w2.runners[r].data.jobID].data.state)
      && (forall l | l in w2.leases :: w2.leases[l].data.jobID != w2.runners[r].data.jobID)
      ensures Over(w2, r)
    {
      AfterTwoPasses(w0, w1, w2, ix, now, at0, at1, ForJob(w2.runners[r].data.jobID));
      QuietJobIsOver(w2, ix, now, r);
    }
  }

  /** A live lease of a live job: its runner exists, agrees with the provider, and the job follows the runner. */
  predicate Working(w: World, job: Job, lease: Lease, now: Time) {
    && lease.data.state in {LeaseActive, LeaseTerminating} && !Due(lease.data.expiresAt, now)
    && lease.data.runnerID in w.runners
    && var runner := w.runners[lease.data.runnerID];
      && runner.data.state in {RunnerProvisioning, RunnerReady, RunnerBusy, RunnerTerminating}
      && runner.data.state == Truth(Get(w.live, runner.id)) && !Due(runner.data.expiresAt, now)
      && (runner.data.state == RunnerBusy ==> job.data.state == JobRunning)
      && (runner.data.state == RunnerReady ==> job.data.state in {JobAssigned, JobRunning})
  }

  lemma QuietCellWorks(c: Cell, now: Time)
    requires Quiet(c, now) && c.job.Some? && !TerminalJob(c.job.value.data.state)
    ensures !Due(c.job.value.data.expiresAt, now)
    ensures c.lease.None? ==> c.job.value.data.state in {JobQueued, JobProvisioning}
    ensures c.lease.Some? ==>
      && c.lease.value.data.state in {LeaseActive, LeaseTerminating} && !Due(c.lease.value.data.expiresAt, now)
      && c.seen.Some? && c.seen.value.id == c.lease.value.data.runnerID
      && c.seen.value.data.state in {RunnerProvisioning, RunnerReady, RunnerBusy, RunnerTerminating}
      && c.seen.value.data.state == Truth(c.live) && !Due(c.seen.value.data.expiresAt, now)
      && (c.seen.value.data.state == RunnerBusy ==> c.job.value.data.state == JobRunning)
      && (c.seen.value.data.state == RunnerReady ==> c.job.value.data.state in {JobAssigned, JobRunning})
  {
  }

  lemma JobCell(w: World, ix: Index, j: string)
    requires Indexed(w, ix) && j in w.jobs
    ensures var c := CellAt(w, w.runners, ix, ForJob(j)); c.job == Some(w.jobs[j])
    ensures var c := CellAt(w, w.runners, ix, ForJob(j));
      forall l | l in w.leases && w.leases[l].data.jobID == j :: c.lease == Some(w.leases[l])
    ensures var c := CellAt(w, w.runners, ix, ForJob(j));
      c.lease.Some? ==> c.lease.value.id in w.leases && w.leases[c.lease.value.id].data.jobID == j
    ensures var c := CellAt(w, w.runners, ix, ForJob(j));
      c.seen.Some? ==> var r := c.seen.value; Get(w.runners, r.id) == Some(r) && c.live == Get(w.live, r.id)
  {
  }

  lemma LeaseCell(w: World, ix: Index, l: string)
    requires Indexed(w, ix) && l in w.leases
    ensures var c, lease := CellAt(w, w.runners, ix, ForJob(w.leases[l].data.jobID)), w.leases[l];
      && c.lease == Some(lease) && c.job == Get(w.jobs, lease.data.jobID)
      && (lease.data.runnerID in w.runners ==> lease.data.jobID == "" || Leased(lease, c.seen).Some?)
      && (lease.data.runnerID !in w.runners ==> Leased(lease, c.seen).None?)
  {
    var r := w.leases[l].data.runnerID;
    if r in w.runners && w.leases[l].data.jobID != "" {
      KeyHoldsItsRunner(w, ix, r);
    }
  }

  /** The records agree around an unfinished job, and a lease that has lost its job or its runner has ended. */
  ghost predicate Agreeing(w: World, now: Time) {
    && (forall j | j in w.jobs && !TerminalJob(w.jobs[j].data.state) ::
      && !Due(w.jobs[j].data.expiresAt, now)
      && ((forall l | l in w.leases :: w.leases[l].data.jobID != j) ==>
          w.jobs[j].data.state in {JobQueued, JobProvisioning}))
    && (forall l | l in w.leases ::
      var job, runner := Get(w.jobs, w.leases[l].data.jobID), Get(w.runners, w.leases[l].data.runnerID);
      if job.None? || runner.None? then w.leases[l].data.state in {LeaseFailed, LeaseTerminated}
      else if TerminalJob(job.value.data.state) then w.leases[l].data.state == LeaseTerminated
      else Working(w, job.value, w.leases[l], now))
  }

  lemma QuietJobAgrees(w: World, ix: Index, now: Time, j: string)
    requires Indexed(w, ix) && j in w.jobs && !TerminalJob(w.jobs[j].data.state)
    requires Quiet(CellAt(w, w.runners, ix, ForJob(j)), now)
    ensures !Due(w.jobs[j].data.expiresAt, now)
    ensures (forall l | l in w.leases :: w.leases[l].data.jobID != j) ==>
      w.jobs[j].data.state in {JobQueued, JobProvisioning}
  {
    JobCell(w, ix, j);
    QuietCellWorks(CellAt(w, w.runners, ix, ForJob(j)), now);
    hide Indexed, Quiet, CellAt;
  }

  lemma QuietLeaseAgrees(w: World, ix: Index, now: Time, l: string)
    requires Indexed(w, ix) && l in w.leases && Quiet(CellAt(w, w.runners, ix, ForJob(w.leases[l].data.jobID)), now)
    ensures var job, runner := Get(w.jobs, w.leases[l].data.jobID), Get(w.runners, w.leases[l].data.runnerID);
      && (job.None? || runner.None? ==> w.leases[l].data.state in {LeaseFailed, LeaseTerminated})
      && (job.Some? && runner.Some? && TerminalJob(job.value.data.state) ==> w.leases[l].data.state == LeaseTerminated)
  {
    hide Indexed, CellAt, JobTarget, RunnerSettled;
    LeaseCell(w, ix, l);
    NoNamelessJob(w, ix);
  }

  lemma NoNamelessJob(w: World, ix: Index)
    requires Indexed(w, ix)
    ensures "" !in w.jobs
  {
  }

  lemma QuietLeaseWorks(w: World, ix: Index, now: Time, l: string)
    requires Indexed(w, ix) && l in w.leases && Quiet(CellAt(w, w.runners, ix, ForJob(w.leases[l].data.jobID)), now)
    requires w.leases[l].data.jobID in w.jobs && !TerminalJob(w.jobs[w.leases[l].data.jobID].data.state)
    ensures Working(w, w.jobs[w.leases[l].data.jobID], w.leases[l], now)
  {
    hide Indexed, CellAt, Quiet;
    LeaseCell(w, ix, l);
    JobCell(w, ix, w.leases[l].data.jobID);
    QuietCellWorks(CellAt(w, w.runners, ix, ForJob(w.leases[l].data.jobID)), now);
  }

  /**
   After two error-free passes the records agree: an unfinished job has not expired; if it has a lease, that lease
   and its runner are working and the job's state follows the runner's; if it has none, it has not been assigned.
   */
  lemma TwoPassesAgree(w0: World, w1: World, w2: World, ix: Index, now: Time, at0: Time, at1: Time)
    requires Passed(w0, w1, ix, {}, now, at0) && Passed(w1, w2, ix, {}, now, at1)
    ensures Agreeing(w2, now)
  {
    hide SafeWorld, NextCell, Indexed, Quiet, CellAt, Working;
    forall j | j in w2.jobs && !TerminalJob(w2.jobs[j].data.state)
      ensures !Due(w2.jobs[j].data.expiresAt, now)
      ensures (forall l | l in w2.leases :: w2.leases[l].data.jobID != j) ==>
        w2.jobs[j].data.state in {JobQueued, JobProvisioning}
    {
      AfterTwoPasses(w0, w1, w2, ix, now, at0, at1, ForJob(j));
      QuietJobAgrees(w2, ix, now, j);
    }
    forall l | l in w2.leases
      ensures var job, runner := Get(w2.jobs, w2.leases[l].data.jobID), Get(w2.runners, w2.leases[l].data.runnerID);
        if job.None? || runner.None? then w2.leases[l].data.state in {LeaseFailed, LeaseTerminated}
        else if TerminalJob(job.value.data.state) then w2.leases[l].data.state == LeaseTerminated
        else Working(w2, job.value, w2.leases[l], now)
    {
      AfterTwoPasses(w0, w1, w2, ix, now, at0, at1, ForJob(w2.leases[l].data.jobID));
      QuietLeaseAgrees(w2, ix, now, l);
      if w2.leases[l].data.jobID in w2.jobs && !TerminalJob(w2.jobs[w2.leases[l].data.jobID].data.state) {
        QuietLeaseWorks(w2, ix, now, l);
      }
    }
  }

  // ---------------------------------------------------------------- safety of whole runs

  /** The cloud moves on its own: instances change state, but one that is gone stays gone. */
  ghost predicate CloudMoved(w: World, w': World) {
    w' == w.(live := w'.live) && forall r | r in w.runners && Gone(Get(w.live, r)) :: Gone(Get(w'.live, r))
  }

  /** Other parts of the controller add records; a new runner does not start as terminated. */
  ghost predicate Enlarged(w: World, w': World) {
    && w'.live == w.live
    && (forall j | j in w.jobs :: j in w'.jobs && w'.jobs[j] == w.jobs[j])
    && (forall r | r in w.runners :: r in w'.runners && w'.runners[r] == w.runners[r])
    && (forall r | r in w'.runners && r !in w.runners :: w'.runners[r].data.state != RunnerTerminated)
  }

  /** Any sequence of Reconcile and ReapExpired calls, failures included, between moves of the world. */
  ghost predicate IsRun(ws: seq<World>) {
    forall i | 0 <= i < |ws| - 1 ::
      SafeWorld(ws[i], ws[i + 1]) || CloudMoved(ws[i], ws[i + 1]) || Enlarged(ws[i], ws[i + 1])
  }

  lemma {:induction false} FinalStatesAreFinal(ws: seq<World>, i: nat, n: nat)
    requires IsRun(ws) && i <= n < |ws| && Truthful(ws[i])
    ensures Truthful(ws[n])
    ensures forall r | r in ws[i].runners && ws[i].runners[r].data.state == RunnerTerminated ::
      r in ws[n].runners && ws[n].runners[r] == ws[i].runners[r] && Gone(Get(ws[n].live, r))
    ensures forall j | j in ws[i].jobs && TerminalJob(ws[i].jobs[j].data.state) ::
      j in ws[n].jobs && ws[n].jobs[j] == ws[i].jobs[j]
    decreases n - i
  {
    hide SafeWorld, CloudMoved, Enlarged;
    if i < n {
      FinalStatesAreFinal(ws, i, n - 1);
      OneStepIsFinal(ws[n - 1], ws[n]);
    }
  }

  lemma OneStepIsFinal(w: World, w': World)
    requires Truthful(w) && (SafeWorld(w, w') || CloudMoved(w, w') || Enlarged(w, w'))
    ensures Truthful(w')
    ensures forall r | r in w.runners && w.runners[r].data.state == RunnerTerminated ::
      r in w'.runners && w'.runners[r] == w.runners[r]
    ensures forall j | j in w.jobs && TerminalJob(w.jobs[j].data.state) :: j in w'.jobs && w'.jobs[j] == w.jobs[j]
  {
    if SafeWorld(w, w') {
      SafeKeepsTruth(w, w');
      assert forall r | r in w.runners :: SafeRunner(w.runners[r], Get(w.live, r), w'.runners[r], Get(w'.live, r));
      assert forall j | j in w.jobs :: SafeJob(w.jobs[j], w'.jobs[j]);
    }
  }
}
