/**
 Scheduling a runner through the pool registry (controller/internal/scheduler/scheduler.go:46-76, 115-120).
 Every call of registry, provider and repository is one atomic step; any number of runs interleave.
 */
module Scheduling {
  import opened Common
  import opened Records
  import opened Capacity
  import opened Providers
  import Memory

  /** What one Schedule call is asked for. */
  datatype Task = Task(jobID: string, expiresAt: Time, mode: Mode, labels: seq<string>, cpu: int, memoryGB: int,
    gpu: bool)

  function Wanted(t: Task): Request {
    Request(t.mode, None, "", "", "", t.labels, t.cpu, t.memoryGB, if t.gpu then 1 else 0)
  }

  /** How far one run has come; `stopped` says whether its Terminate call was accepted. */
  datatype Phase =
    | Asked(task: Task)
    | Chosen(task: Task, claim: Claim)
    | Holding(task: Task, claim: Claim)
    | Started(task: Task, claim: Claim, instance: string)
    | Awake(task: Task, claim: Claim, instance: string)
    | Stopping(claim: Claim, instance: string)
    | Returning(claim: Claim, ended: Option<string>, stopped: bool)
    | Failed(ended: Option<string>, stopped: bool)
    | Succeeded(runner: Runner)
    | Retired(runner: Runner)

  datatype System = System(
    pools: Pools, served: set<string>, cloud: Cloud, limit: int, runners: Memory.Table<RunnerData>,
    runs: map<string, Phase>)

  /** What the environment decides at one step: whether the call fails or is cancelled, and the provider's next name. */
  datatype Luck = Luck(fail: bool, cancelled: bool, newName: string, at: Time, choice: Option<Pool>)

  predicate HoldsClaim(p: Phase) {
    p.Holding? || p.Started? || p.Awake? || p.Stopping? || p.Returning? || p.Succeeded?
  }

  function ClaimOf(p: Phase): Claim
    requires HoldsClaim(p)
  {
    if p.Succeeded? then Claim(p.runner.data.poolID, p.runner.data.cpu, p.runner.data.memoryGB, p.runner.data.gpu)
      else p.claim
  }

  function Holds(runs: map<string, Phase>): map<string, Claim> {
    map k | k in runs && HoldsClaim(runs[k]) :: ClaimOf(runs[k])
  }

  function InstanceOf(p: Phase): Option<string> {
    match p
    case Asked(_) => None
    case Chosen(_, _) => None
    case Holding(_, _) => None
    case Started(_, _, i) => Some(i)
    case Awake(_, _, i) => Some(i)
    case Stopping(_, i) => Some(i)
    case Returning(_, i, _) => i
    case Failed(i, _) => i
    case Succeeded(r) => Some(r.data.instanceID)
    case Retired(r) => Some(r.data.instanceID)
  }

  function ReadyRecord(t: Task, c: Claim, instance: string): Runner {
    Record(instance, NO_TIME, NO_TIME, 0, RunnerData(t.jobID, "", "fake", instance, c.pool,
      c.cpu, c.memoryGB, c.gpu, "", [], RunnerReady, "", t.expiresAt))
  }

  /** The registry picks as Select does, and the provider never repeats a name. */
  ghost predicate Legal(s: System, k: string, l: Luck)
    requires k in s.runs
  {
    && (s.runs[k].Asked? ==> IsSelection(s.pools, Wanted(s.runs[k].task), l.choice))
    && (s.runs[k].Holding? ==> l.newName != "" && l.newName !in s.cloud)
  }

  /** The row CreateRunner would write. */
  function NewRow(s: System, p: Phase, l: Luck): Result<Runner, Memory.Error>
    requires p.Awake?
  {
    Memory.CreatedRow(Get(s.runners, p.instance), ReadyRecord(p.task, p.claim, p.instance), l.at)
  }

  predicate Full(s: System) {
    s.limit > 0 && |Active(s.cloud)| >= s.limit
  }

  /** Where the next call of a run takes it. */
  function NextPhase(s: System, p: Phase, l: Luck): Phase {
    match p
    case Asked(t) =>
      if l.choice.None? || l.choice.value.id !in s.served then Failed(None, true)
      else Chosen(t, AsClaim(Wanted(t), l.choice.value.id))
    case Chosen(t, c) => if ReserveVerdict(s.pools, c).Some? then Failed(None, true) else Holding(t, c)
    case Holding(t, c) => if l.fail || Full(s) then Returning(c, None, true) else Started(t, c, l.newName)
    case Started(t, c, i) => if l.fail || l.cancelled || i !in s.cloud then Stopping(c, i) else Awake(t, c, i)
    case Awake(t, c, i) => if l.fail || NewRow(s, p, l).Err? then Stopping(c, i) else Succeeded(ReadyRecord(t, c, i))
    case Stopping(c, i) => Returning(c, Some(i), !l.fail)
    case Returning(_, i, stopped) => Failed(i, stopped)
    case Succeeded(r) => Retired(r)
    case Failed(_, _) => p
    case Retired(_) => p
  }

  function NextPools(s: System, p: Phase): Pools {
    match p
    case Chosen(_, c) => Reserved(s.pools, c)
    case Returning(c, _, _) => Released(s.pools, c)
    case Succeeded(r) => if r.data.poolID == "" then s.pools else Released(s.pools, ClaimOf(p))
    case _ => s.pools
  }

  function NextCloud(s: System, p: Phase, l: Luck): Cloud {
    match p
    case Holding(_, _) => if l.fail || Full(s) then s.cloud else s.cloud[l.newName := StatusProvisioning]
    case Started(_, _, i) =>
      if l.fail then s.cloud[i := StatusFailed]
      else if l.cancelled || i !in s.cloud || s.cloud[i] in {StatusTerminated, StatusTerminating} then s.cloud
      else s.cloud[i := StatusReady]
    case Stopping(_, i) => if !l.fail && i in s.cloud then s.cloud[i := StatusTerminated] else s.cloud
    case _ => s.cloud
  }

  function NextRunners(s: System, p: Phase, l: Luck): Memory.Table<RunnerData> {
    if p.Awake? && !l.fail then Memory.Stored(s.runners, NewRow(s, p, l)) else s.runners
  }

  /** The next call of run `k`. */
  function Move(s: System, k: string, l: Luck): System
    requires k in s.runs
  {
    var p := s.runs[k];
    System(NextPools(s, p), s.served, NextCloud(s, p, l), s.limit, NextRunners(s, p, l),
      s.runs[k := NextPhase(s, p, l)])
  }

  // ---------------------------------------------------------------- what every interleaving keeps

  /** Usage is the initial usage plus what unfinished runs and unreleased runners hold, within the limits. */
  ghost predicate Sound(s: System, base: map<string, Amounts>) {
    Balanced(s.pools, Holds(s.runs), base) && "" !in s.pools
  }

  /** Whatever a run holds it can give back: no compensating Release is ever refused. */
  lemma ReleaseIsNeverRefused(s: System, base: map<string, Amounts>, k: string)
    requires Sound(s, base) && k in s.runs && HoldsClaim(s.runs[k])
    ensures ReleaseVerdict(s.pools, ClaimOf(s.runs[k])).None?
  {
    assert Holds(s.runs)[k] == ClaimOf(s.runs[k]);
    ClaimsAreCovered(s.pools, Holds(s.runs), base, k);
  }

  lemma HoldsAfter(runs: map<string, Phase>, k: string, p: Phase)
    requires k in runs
    ensures HoldsClaim(p) ==> Holds(runs[k := p]) == Holds(runs)[k := ClaimOf(p)]
    ensures !HoldsClaim(p) ==> Holds(runs[k := p]) == Holds(runs) - {k}
    ensures k in Holds(runs) <==> HoldsClaim(runs[k])
    ensures HoldsClaim(runs[k]) ==> Holds(runs)[k] == ClaimOf(runs[k])
  {
  }

  lemma KeepsItsClaim(s: System, p: Phase, l: Luck)
    requires !p.Chosen? && !p.Returning? && !p.Succeeded?
    ensures NextPools(s, p) == s.pools && HoldsClaim(NextPhase(s, p, l)) == HoldsClaim(p)
    ensures HoldsClaim(p) ==> ClaimOf(NextPhase(s, p, l)) == ClaimOf(p)
  {
    hide ReserveVerdict, NewRow, Full, AsClaim, Wanted;
  }

  lemma MoveKeepsSound(s: System, base: map<string, Amounts>, k: string, l: Luck)
    requires Sound(s, base) && k in s.runs
    ensures Sound(Move(s, k, l), base)
  {
    var claims, p := Holds(s.runs), s.runs[k];
    HoldsAfter(s.runs, k, NextPhase(s, p, l));
    if HoldsClaim(p) {
      ReleaseIsNeverRefused(s, base, k);
    }
    PhaseKeepsBalance(s, claims, base, k, p, l);
    hide Balanced, Holds, HoldsClaim, ClaimOf, NextPhase, NextPools;
  }

  lemma PhaseKeepsBalance(s: System, claims: map<string, Claim>, base: map<string, Amounts>, k: string, p: Phase,
      l: Luck)
    requires Balanced(s.pools, claims, base) && "" !in s.pools
    requires k in claims <==> HoldsClaim(p)
    requires HoldsClaim(p) ==> claims[k] == ClaimOf(p) && ReleaseVerdict(s.pools, ClaimOf(p)).None?
    ensures var p' := NextPhase(s, p, l);
      Balanced(NextPools(s, p), if HoldsClaim(p') then claims[k := ClaimOf(p')] else claims - {k}, base)
    ensures NextPools(s, p).Keys == s.pools.Keys
  {
    hide Balanced, Fits, Covers, Take, GiveBack, NewRow, Full, AsClaim, Wanted;
    if p.Chosen? {
      assert claims - {k} == claims;
      if ReserveVerdict(s.pools, p.claim).None? {
        TakingBalances(s.pools, claims, base, k, p.claim);
      }
    } else if p.Returning? || p.Succeeded? {
      GivingBackBalances(s.pools, claims, base, k);
    } else {
      KeepsItsClaim(s, p, l);
      if HoldsClaim(p) {
        assert claims[k := ClaimOf(p)] == claims;
      } else {
        assert claims - {k} == claims;
      }
    }
  }

  predicate Settled(cloud: Cloud, runners: Memory.Table<RunnerData>, p: Phase) {
    match p
    case Started(_, _, i) => i in cloud && cloud[i] == StatusProvisioning
    case Awake(_, _, i) => i in cloud && cloud[i] == StatusReady
    case Stopping(_, i) => i in cloud
    case Returning(_, i, stopped) => i.Some? ==> i.value in cloud && (stopped ==> cloud[i.value] == StatusTerminated)
    case Failed(i, stopped) => i.Some? ==> i.value in cloud && (stopped ==> cloud[i.value] == StatusTerminated)
    case Succeeded(r) =>
      && Get(cloud, r.data.instanceID) == Some(StatusReady)
      && r.id == r.data.instanceID && r.id in runners && runners[r.id].data == r.data
    case Retired(r) => r.data.instanceID in cloud
    case _ => true
  }

  /** Every run has an instance and a record of its own, and an instance it stopped is terminated. */
  ghost predicate Separate(s: System) {
    && (forall j, k | j in s.runs && k in s.runs && InstanceOf(s.runs[j]).Some? &&
        InstanceOf(s.runs[j]) == InstanceOf(s.runs[k]) :: j == k)
    && (forall k | k in s.runs :: Settled(s.cloud, s.runners, s.runs[k]))
  }

  /** One run's next call, from its own point of view. */
  lemma PhaseTouchesOwn(s: System, p: Phase, l: Luck)
    requires Settled(s.cloud, s.runners, p) && (p.Holding? ==> l.newName !in s.cloud)
    ensures var p' := NextPhase(s, p, l);
      && (InstanceOf(p).Some? ==> InstanceOf(p') == InstanceOf(p))
      && (InstanceOf(p).None? && InstanceOf(p').Some? ==> InstanceOf(p') == Some(l.newName) && l.newName !in s.cloud)
      && Settled(NextCloud(s, p, l), NextRunners(s, p, l), p')
  {
    hide ReserveVerdict, Full, AsClaim, Wanted;
  }

  /** Nothing else in the cloud or among the records changes. */
  lemma PhaseLeavesOthers(s: System, p: Phase, l: Luck, i: string)
    requires InstanceOf(NextPhase(s, p, l)) != Some(i)
    requires (InstanceOf(p).Some? ==> InstanceOf(NextPhase(s, p, l)) == InstanceOf(p))
    ensures Get(NextCloud(s, p, l), i) == Get(s.cloud, i) && Get(NextRunners(s, p, l), i) == Get(s.runners, i)
  {
    hide ReserveVerdict, Full, AsClaim, Wanted;
  }

  lemma MoveTouchesOwn(s: System, k: string, l: Luck)
    requires Separate(s) && k in s.runs && Legal(s, k, l)
    ensures var s' := Move(s, k, l);
      && s'.runs == s.runs[k := s'.runs[k]]
      && (InstanceOf(s.runs[k]).Some? ==> InstanceOf(s'.runs[k]) == InstanceOf(s.runs[k]))
      && (InstanceOf(s.runs[k]).None? && InstanceOf(s'.runs[k]).Some? ==>
          InstanceOf(s'.runs[k]) == Some(l.newName) && l.newName !in s.cloud)
      && Settled(s'.cloud, s'.runners, s'.runs[k])
  {
    PhaseTouchesOwn(s, s.runs[k], l);
    hide Settled, InstanceOf, NextPhase, NextCloud, NextRunners, NextPools, IsSelection;
  }

  lemma MoveLeavesOthers(s: System, k: string, l: Luck, i: string)
    requires Separate(s) && k in s.runs && Legal(s, k, l) && InstanceOf(Move(s, k, l).runs[k]) != Some(i)
    ensures Get(Move(s, k, l).cloud, i) == Get(s.cloud, i) && Get(Move(s, k, l).runners, i) == Get(s.runners, i)
  {
    PhaseTouchesOwn(s, s.runs[k], l);
    PhaseLeavesOthers(s, s.runs[k], l, i);
    hide Settled, InstanceOf, NextPhase, NextCloud, NextRunners, NextPools, IsSelection;
  }

  /** A run's instance exists in the cloud, and is the name of its record. */
  lemma SettledMeans(cloud: Cloud, runners: Memory.Table<RunnerData>, p: Phase)
    requires Settled(cloud, runners, p) && InstanceOf(p).Some?
    ensures InstanceOf(p).value in cloud
  {
  }

  lemma SettledElsewhere(s: System, s': System, p: Phase)
    requires Settled(s.cloud, s.runners, p)
    requires InstanceOf(p).Some? ==> var i := InstanceOf(p).value;
      Get(s.cloud, i) == Get(s'.cloud, i) && Get(s.runners, i) == Get(s'.runners, i)
    ensures Settled(s'.cloud, s'.runners, p)
  {
  }

  lemma MoveKeepsSeparate(s: System, k: string, l: Luck)
    requires Separate(s) && k in s.runs && Legal(s, k, l)
    ensures Separate(Move(s, k, l))
  {
    hide Move, Legal, Settled, InstanceOf;
    var s' := Move(s, k, l);
    MoveTouchesOwn(s, k, l);
    forall j | j in s.runs && j != k
      ensures Settled(s'.cloud, s'.runners, s'.runs[j])
      ensures InstanceOf(s.runs[j]).Some? ==> InstanceOf(s.runs[j]) != InstanceOf(s'.runs[k])
    {
      assert Settled(s.cloud, s.runners, s.runs[j]);
      if InstanceOf(s.runs[j]).Some? {
        SettledMeans(s.cloud, s.runners, s.runs[j]);
        MoveLeavesOthers(s, k, l, InstanceOf(s.runs[j]).value);
      }
      SettledElsewhere(s, s', s.runs[j]);
    }
  }

  // ---------------------------------------------------------------- whole histories

  datatype Turn = Turn(run: string, luck: Luck)

  function History(s: System, turns: seq<Turn>): System {
    if turns == [] then s
    else
      var before := History(s, turns[..|turns| - 1]);
      var t := turns[|turns| - 1];
      if t.run in before.runs then Move(before, t.run, t.luck) else before
  }

  ghost predicate Possible(s: System, turns: seq<Turn>) {
    forall i | 0 <= i < |turns| ::
      turns[i].run in History(s, turns[..i]).runs && Legal(History(s, turns[..i]), turns[i].run, turns[i].luck)
  }

  /** No run has begun, and the pools are as their owners registered them. */
  ghost predicate AtStart(s: System) {
    && (forall k | k in s.runs :: s.runs[k].Asked?)
    && (forall p | p in s.pools :: s.pools[p].id == p && ValidPool(s.pools[p]))
  }

  function Usage(pools: Pools): map<string, Amounts> {
    map p | p in pools :: pools[p].used
  }

  /** An active instance was there before or belongs to a run that has not stopped it. */
  ghost predicate NoneLeaked(s: System, before: Cloud) {
    forall i | i in Active(s.cloud) && !(i in before && s.cloud[i] == before[i]) ::
      exists k :: k in s.runs && InstanceOf(s.runs[k]) == Some(i) && !(s.runs[k].Failed? && s.runs[k].stopped)
  }

  ghost predicate Accounted(s: System, before: Cloud) {
    forall i | i in s.cloud && !(i in before && s.cloud[i] == before[i]) ::
      exists k :: k in s.runs && InstanceOf(s.runs[k]) == Some(i)
  }

  lemma MoveKeepsAccounted(s: System, before: Cloud, k: string, l: Luck)
    requires Separate(s) && Accounted(s, before) && k in s.runs && Legal(s, k, l)
    ensures Accounted(Move(s, k, l), before)
  {
    hide Move, Legal;
    var s' := Move(s, k, l);
    MoveTouchesOwn(s, k, l);
    forall i | i in s'.cloud && !(i in before && s'.cloud[i] == before[i])
      ensures exists j :: j in s'.runs && InstanceOf(s'.runs[j]) == Some(i)
    {
      if InstanceOf(s'.runs[k]) != Some(i) {
        MoveLeavesOthers(s, k, l, i);
        assert Get(s'.cloud, i) == Some(s'.cloud[i]);
        var j :| j in s.runs && InstanceOf(s.runs[j]) == Some(i);
        assert j != k;
        assert s'.runs[j] == s.runs[j];
      } else {
        assert k in s'.runs;
      }
    }
  }

  lemma StartIsSound(s: System)
    requires AtStart(s)
    ensures Sound(s, Usage(s.pools)) && Separate(s) && Accounted(s, s.cloud)
  {
    assert Holds(s.runs) == map[];
    assert Blank("");
  }

  /** Over every interleaving of any number of runs and releases of returned runners. */
  lemma {:induction false} HistoriesAreSound(s: System, turns: seq<Turn>)
    requires AtStart(s) && Possible(s, turns)
    ensures var e := History(s, turns);
      e.runs.Keys == s.runs.Keys && Sound(e, Usage(s.pools)) && Separate(e) && Accounted(e, s.cloud)
  {
    hide Move, Legal, Sound, Separate, Accounted;
    if turns == [] {
      StartIsSound(s);
    } else {
      var n := |turns| - 1;
      assert forall i | 0 <= i < n :: turns[..n][..i] == turns[..i];
      HistoriesAreSound(s, turns[..n]);
      var b, t := History(s, turns[..n]), turns[n];
      assert Legal(b, t.run, t.luck);
      MoveKeepsSound(b, Usage(s.pools), t.run, t.luck);
      MoveKeepsSeparate(b, t.run, t.luck);
      MoveKeepsAccounted(b, s.cloud, t.run, t.luck);
      MoveTouchesOwn(b, t.run, t.luck);
    }
  }

  /** What the outstanding runs and unreleased runners hold of a pool. */
  ghost function Outstanding(s: System, pool: string): Amounts {
    Total(Holds(s.runs), pool)
  }

  /**
   The scheduling transaction: usage is initial usage plus outstanding holds, no limit is exceeded, no release is
   refused, and an instance of a failed run whose Terminate was accepted is not active.
   */
  lemma SchedulingIsATransaction(s: System, turns: seq<Turn>)
    requires AtStart(s) && Possible(s, turns)
    ensures var e := History(s, turns);
      && (forall p | p in e.pools :: p in s.pools
            && e.pools[p].used == s.pools[p].used.Plus(Outstanding(e, p)) && e.pools[p].used.Within(e.pools[p].limit))
      && (forall k | k in e.runs && HoldsClaim(e.runs[k]) :: ReleaseVerdict(e.pools, ClaimOf(e.runs[k])).None?)
      && NoneLeaked(e, s.cloud)
  {
    HistoriesAreSound(s, turns);
    var e := History(s, turns);
    forall k | k in e.runs && HoldsClaim(e.runs[k]) ensures ReleaseVerdict(e.pools, ClaimOf(e.runs[k])).None? {
      ReleaseIsNeverRefused(e, Usage(s.pools), k);
    }
    StoppedStayGone(e, s.cloud);
  }

  lemma StoppedStayGone(e: System, before: Cloud)
    requires Separate(e) && Accounted(e, before)
    ensures NoneLeaked(e, before)
  {
    forall i | i in Active(e.cloud) && !(i in before && e.cloud[i] == before[i])
      ensures exists k :: k in e.runs && InstanceOf(e.runs[k]) == Some(i) && !(e.runs[k].Failed? && e.runs[k].stopped)
    {
      var k :| k in e.runs && InstanceOf(e.runs[k]) == Some(i);
      assert Settled(e.cloud, e.runners, e.runs[k]);
    }
  }

  lemma NothingHeld(e: System, base: map<string, Amounts>)
    requires Sound(e, base) && Holds(e.runs) == map[]
    ensures Usage(e.pools) == base
  {
    hide Sum;
    forall p | p in e.pools ensures e.pools[p].used == base[p] {
      assert Total(Holds(e.runs), p) == NOTHING by {
        assert Holds(e.runs).Keys == {};
        SumOfStrangers(Holds(e.runs), {}, p);
      }
    }
  }

  /** When every run has failed or its runner was released, the pools are used exactly as before. */
  lemma EverythingIsReturned(s: System, turns: seq<Turn>)
    requires AtStart(s) && Possible(s, turns)
    requires forall p | p in History(s, turns).runs.Values :: p.Failed? || p.Retired?
    ensures Usage(History(s, turns).pools) == Usage(s.pools)
  {
    HistoriesAreSound(s, turns);
    var e := History(s, turns);
    hide History, Possible, AtStart, Sound, Separate, Accounted;
    forall k | k in e.runs ensures !HoldsClaim(e.runs[k]) {
      assert e.runs[k] in e.runs.Values;
    }
    assert Holds(e.runs) == map[];
    NothingHeld(e, Usage(s.pools));
  }

  // ---------------------------------------------------------------- what a run gets is what it asked for

  /** The pool offers all the task's labels, under an ownership its mode admits. */
  predicate Suits(p: Pool, t: Task) {
    && p.availability == Available && (forall x | x in t.labels :: x in p.labels)
    && (t.mode == CustomerOnly ==> p.ownership == CustomerOwned) && (t.mode == ManagedOnly ==> p.ownership == Managed)
  }

  /** Which pools a task can be given: those that suit it and have room for it. */
  lemma CandidateIff(pools: Pools, id: string, t: Task)
    requires id in pools && pools[id].id == id && pools[id].limit.NonNegative()
    ensures Candidate(pools, id, Wanted(t)) <==>
      && Suits(pools[id], t) && t.cpu >= 0 && t.memoryGB >= 0
      && pools[id].used.Plus(Amounts(1, t.cpu, t.memoryGB, if t.gpu then 1 else 0)).Within(pools[id].limit)
  {
    hide Matches, Fits;
    EligibleIff(pools, id, Wanted(t));
  }

  predicate ClaimFor(pools: Pools, t: Task, c: Claim) {
    && c.cpu == t.cpu && c.memoryGB == t.memoryGB && c.gpu == (if t.gpu then 1 else 0)
    && c.pool in pools && Suits(pools[c.pool], t)
  }

  predicate RecordFor(pools: Pools, t: Task, r: Runner) {
    && ClaimFor(pools, t, Claim(r.data.poolID, r.data.cpu, r.data.memoryGB, r.data.gpu))
    && r.data.jobID == t.jobID && r.data.expiresAt == t.expiresAt && r.data.state == RunnerReady
    && r.id == r.data.instanceID
  }

  /** Whatever the run has claimed or recorded is for its own task. */
  predicate AsAsked(pools: Pools, t: Task, p: Phase) {
    match p
    case Asked(u) => u == t
    case Chosen(u, c) => u == t && ClaimFor(pools, t, c)
    case Holding(u, c) => u == t && ClaimFor(pools, t, c)
    case Started(u, c, _) => u == t && ClaimFor(pools, t, c)
    case Awake(u, c, _) => u == t && ClaimFor(pools, t, c)
    case Stopping(c, _) => ClaimFor(pools, t, c)
    case Returning(c, _, _) => ClaimFor(pools, t, c)
    case Failed(_, _) => true
    case Succeeded(r) => RecordFor(pools, t, r)
    case Retired(r) => RecordFor(pools, t, r)
  }

  /** Pools are the registered ones, whatever is used of them. */
  ghost predicate OnlyUsageDiffers(before: Pools, pools: Pools) {
    pools.Keys == before.Keys && forall p | p in pools :: pools[p] == before[p].(used := pools[p].used)
  }

  lemma PoolsKeepTheirTerms(before: Pools, s: System, p: Phase)
    requires OnlyUsageDiffers(before, s.pools)
    ensures OnlyUsageDiffers(before, NextPools(s, p))
  {
    hide Fits, Covers;
  }

  lemma ChoiceSuits(before: Pools, s: System, t: Task, choice: Option<Pool>)
    requires OnlyUsageDiffers(before, s.pools) && (forall id | id in before :: before[id].id == id)
    requires (forall id | id in before :: before[id].limit.NonNegative())
    requires IsSelection(s.pools, Wanted(t), choice) && choice.Some?
    ensures ClaimFor(before, t, AsClaim(Wanted(t), choice.value.id))
  {
    hide IsSelection, Candidate, Suits;
    SelectionFollowsMode(s.pools, Wanted(t), choice);
    CandidateIsRegistered(s.pools, choice.value.id, Wanted(t));
    CandidateIff(s.pools, choice.value.id, t);
    SuitsUnused(before[choice.value.id], s.pools[choice.value.id].used, t);
  }

  lemma CandidateIsRegistered(pools: Pools, id: string, r: Request)
    requires Candidate(pools, id, r)
    ensures id in pools
  {
  }

  lemma SuitsUnused(p: Pool, used: Amounts, t: Task)
    ensures Suits(p.(used := used), t) <==> Suits(p, t)
  {
  }

  lemma PhaseIsAsAsked(before: Pools, s: System, t: Task, p: Phase, l: Luck)
    requires OnlyUsageDiffers(before, s.pools) && (forall id | id in before :: before[id].id == id)
    requires (forall id | id in before :: before[id].limit.NonNegative())
    requires AsAsked(before, t, p) && (p.Asked? ==> IsSelection(s.pools, Wanted(t), l.choice))
    ensures AsAsked(before, t, NextPhase(s, p, l))
  {
    hide IsSelection, Suits, ReserveVerdict, OnlyUsageDiffers, NewRow, Full;
    if p.Asked? && l.choice.Some? {
      ChoiceSuits(before, s, t, l.choice);
    }
  }

  lemma {:induction false} RegistryKeepsItsTerms(s: System, turns: seq<Turn>)
    ensures OnlyUsageDiffers(s.pools, History(s, turns).pools)
  {
    if turns == [] {
    } else {
      hide OnlyUsageDiffers, NextPools, NextPhase, NextCloud, NextRunners;
      var n := |turns| - 1;
      var b := History(s, turns[..n]);
      RegistryKeepsItsTerms(s, turns[..n]);
      if turns[n].run in b.runs {
        PoolsKeepTheirTerms(s.pools, b, b.runs[turns[n].run]);
      }
    }
  }

  /**
   Over every interleaving a run claims, holds and records exactly what its own task asked for, in a pool that suits
   the task, and a runner returned is ready, for the task's job and until the task's deadline.
   */
  lemma {:induction false} RunsGetWhatTheyAskedFor(s: System, turns: seq<Turn>, k: string)
    requires AtStart(s) && Possible(s, turns) && k in s.runs
    ensures k in History(s, turns).runs && AsAsked(s.pools, s.runs[k].task, History(s, turns).runs[k])
  {
    hide AsAsked, IsSelection, ValidPool, OnlyUsageDiffers, NextPools, NextPhase, NextCloud, NextRunners;
    if turns == [] {
      StartsAsAsked(s.pools, s.runs[k]);
    } else {
      var n := |turns| - 1;
      assert forall i | 0 <= i < n :: turns[..n][..i] == turns[..i];
      RunsGetWhatTheyAskedFor(s, turns[..n], k);
      var b, t := History(s, turns[..n]), turns[n];
      assert Legal(b, t.run, t.luck);
      RegistryKeepsItsTerms(s, turns[..n]);
      if t.run == k {
        LimitsAreValid(s);
        AskedIsItsTask(s.pools, s.runs[k].task, b.runs[k]);
        PhaseIsAsAsked(s.pools, b, s.runs[k].task, b.runs[k], t.luck);
      }
    }
  }

  lemma StartsAsAsked(pools: Pools, p: Phase)
    requires p.Asked?
    ensures AsAsked(pools, p.task, p)
  {
  }

  lemma AskedIsItsTask(pools: Pools, t: Task, p: Phase)
    requires AsAsked(pools, t, p)
    ensures p.Asked? ==> p.task == t
  {
  }

  lemma LimitsAreValid(s: System)
    requires AtStart(s)
    ensures forall id | id in s.pools :: s.pools[id].limit.NonNegative() && s.pools[id].id == id
  {
  }

  // ---------------------------------------------------------------- the code itself

  datatype ScheduleError =
    | NoEligibleCapacity | NoProvider | RegistryRefused(cause: Capacity.Error)
    | ProvisionFailed | NotReady | NotStored

  /** Which calls of one Schedule fail, the name its instance gets and the time of its record. */
  datatype Weather = Weather(provision: bool, waitReady: bool, cancelWait: bool, create: bool, terminate: bool,
    newName: string, at: Time)

  lemma HistoryGrows(s: System, turns: seq<Turn>, now: System, k: string, l: Luck)
    requires Possible(s, turns) && History(s, turns) == now && k in now.runs && Legal(now, k, l)
    ensures Possible(s, turns + [Turn(k, l)]) && History(s, turns + [Turn(k, l)]) == Move(now, k, l)
  {
    hide Legal, Move;
    var more := turns + [Turn(k, l)];
    assert more[..|turns|] == turns;
    forall i | 0 <= i < |more|
      ensures more[i].run in History(s, more[..i]).runs && Legal(History(s, more[..i]), more[i].run, more[i].luck)
    {
      if i < |turns| {
        assert more[..i] == turns[..i] && more[i] == turns[i];
      }
    }
  }

  /** One more call of a run that is watched on its own. */
  lemma Turned(s: System, turns: seq<Turn>, now: System, k: string, p: Phase, l: Luck)
    returns (more: seq<Turn>, next: System, q: Phase)
    requires Possible(s, turns) && History(s, turns) == now && now.runs == map[k := p] && Legal(now, k, l)
    ensures Possible(s, more) && History(s, more) == next && q == NextPhase(now, p, l)
    ensures next == System(NextPools(now, p), now.served, NextCloud(now, p, l), now.limit, NextRunners(now, p, l),
      map[k := q])
  {
    hide Legal, NextPhase, NextPools, NextCloud, NextRunners, History, Possible;
    HistoryGrows(s, turns, now, k, l);
    more, next, q := turns + [Turn(k, l)], Move(now, k, l), NextPhase(now, p, l);
    assert now.runs[k := q] == map[k := q];
  }

  lemma NoTurns(s: System)
    ensures Possible(s, []) && History(s, []) == s
  {
  }

  class Scheduler {
    const registry: Registry
    const provider: FakeProvider
    const state: Memory.MemoryRepository
    const served: set<string>
    const limit: int

    constructor (registry: Registry, provider: FakeProvider, state: Memory.MemoryRepository, served: set<string>,
      limit: int)
      ensures this.registry == registry && this.provider == provider && this.state == state
      ensures this.served == served && this.limit == limit
    {
      this.registry, this.provider, this.state, this.served, this.limit := registry, provider, state, served, limit;
    }

    /** The shared state, with this run at phase `p`. */
    ghost function Seen(k: string, p: Phase): System
      reads registry, provider, state
    {
      System(registry.pools, served, provider.instances, limit, state.runners, map[k := p])
    }

    /** The pool that Select picks for the task is served by a provider. */
    ghost predicate Servable(pools: Pools, t: Task) {
      exists p :: IsSelection(pools, Wanted(t), Some(p)) && p.id in served
    }

    lemma ChoiceDecides(t: Task, choice: Option<Pool>)
      requires (forall id | id in registry.pools :: registry.pools[id].id == id)
      requires IsSelection(registry.pools, Wanted(t), choice)
      ensures choice.None? <==> forall id :: !Candidate(registry.pools, id, Wanted(t))
      ensures Servable(registry.pools, t) <==> choice.Some? && choice.value.id in served
    {
      hide IsSelection, Candidate;
      SelectionFollowsMode(registry.pools, Wanted(t), choice);
      if p :| IsSelection(registry.pools, Wanted(t), Some(p)) && p.id in served {
        SelectionUnique(registry.pools, Wanted(t), choice, Some(p));
      }
    }

    /** Select a pool that has a provider and reserve it: the first steps of Schedule, and Scheduler.Reserve itself. */
    method Reserve(t: Task, ghost s: System, ghost k: string)
      returns (r: Result<Claim, ScheduleError>, ghost turns: seq<Turn>, ghost last: Phase)
      requires s == Seen(k, Asked(t)) && forall id | id in registry.pools :: registry.pools[id].id == id
      modifies registry`pools
      ensures Possible(s, turns) && History(s, turns) == Seen(k, last)
      ensures last == if r.Ok? then Holding(t, r.value) else Failed(None, true)
      ensures r.Ok? <==> Servable(old(registry.pools), t)
      ensures r == Err(NoEligibleCapacity) <==> forall id :: !Candidate(old(registry.pools), id, Wanted(t))
    {
      hide History, Possible, IsSelection, Candidate, Matches, ReserveVerdict, Reserved;
      ghost var now := s;
      NoTurns(s);
      var choice := registry.Select(Wanted(t));
      ChoiceDecides(t, choice);
      turns, now, last := Turned(s, [], now, k, Asked(t), Luck(false, false, "", 0, choice));
      if choice.None? {
        return Err(NoEligibleCapacity), turns, last;
      }
      if choice.value.id !in served {
        return Err(NoProvider), turns, last;
      }
      var claim := AsClaim(Wanted(t), choice.value.id);
      ghost var pools := registry.pools;
      var refused := registry.Reserve(claim);
      turns, now, last := Turned(s, turns, now, k, last, Luck(false, false, "", 0, None));
      r := if refused.Some? then Err(RegistryRefused(refused.value)) else Ok(claim);
      SelectionCanBeReserved(pools, Wanted(t), choice);
    }

    /** Every execution is a legal history of one run, from its request to a failure or to a returned runner. */
    method Schedule(t: Task, w: Weather, ghost k: string)
      returns (r: Result<Runner, ScheduleError>, ghost turns: seq<Turn>, ghost last: Phase)
      requires forall id | id in registry.pools :: registry.pools[id].id == id
      requires w.newName != "" && w.newName !in provider.instances
      modifies registry`pools, provider, state`runners
      ensures Possible(old(Seen(k, Asked(t))), turns) && History(old(Seen(k, Asked(t))), turns) == Seen(k, last)
      ensures if r.Ok? then last == Succeeded(r.value) else last.Failed?
      ensures r.Ok? <==>
        && Servable(old(registry.pools), t) && !w.provision
        && (limit <= 0 || |Active(old(provider.instances))| < limit)
        && !w.waitReady && !w.cancelWait && !w.create && w.newName !in old(state.runners)
      ensures r == Err(NoEligibleCapacity) <==> forall id :: !Candidate(old(registry.pools), id, Wanted(t))
    {
      hide History, Possible, IsSelection, Candidate, ReleaseVerdict, Released;
      ghost var s, now := Seen(k, Asked(t)), Seen(k, Asked(t));
      var reserved;
      reserved, turns, last := Reserve(t, s, k);
      if reserved.Err? {
        return Err(reserved.error), turns, last;
      }
      var claim := reserved.value;
      now := Seen(k, last);
      var instance := provider.Provision(w.newName, limit, w.provision);
      turns, now, last := Turned(s, turns, now, k, last, Luck(w.provision, false, w.newName, 0, None));
      if instance.Err? {
        var _ := registry.Release(claim);
        turns, now, last := Turned(s, turns, now, k, last, Luck(false, false, "", 0, None));
        return Err(ProvisionFailed), turns, last;
      }
      r, turns, last := Launch(t, claim, w, s, turns, k);
    }

    /** From a provisioned instance to a stored runner, or back. */
    method Launch(t: Task, claim: Claim, w: Weather, ghost s: System, ghost before: seq<Turn>, ghost k: string)
      returns (r: Result<Runner, ScheduleError>, ghost turns: seq<Turn>, ghost last: Phase)
      requires Possible(s, before) && History(s, before) == Seen(k, Started(t, claim, w.newName))
      requires w.newName != "" && w.newName in provider.instances
      modifies registry`pools, provider, state`runners
      ensures Possible(s, turns) && History(s, turns) == Seen(k, last)
      ensures if r.Ok? then last == Succeeded(r.value) else last.Failed?
      ensures r.Ok? <==> !w.waitReady && !w.cancelWait && !w.create && w.newName !in old(state.runners)
      ensures r.Err? ==> r.error in {NotReady, NotStored}
    {
      hide History, Possible, IsSelection, ReleaseVerdict, Released;
      ghost var now := Seen(k, Started(t, claim, w.newName));
      var ready := provider.WaitReady(w.newName, w.waitReady, w.cancelWait);
      turns, now, last := Turned(s, before, now, k, Started(t, claim, w.newName),
        Luck(w.waitReady, w.cancelWait, "", 0, None));
      if !ready {
        turns, last := Compensate(s, turns, k, claim, w);
        return Err(NotReady), turns, last;
      }
      var runner := ReadyRecord(t, claim, w.newName);
      var stored := false;
      if !w.create {
        var row := state.CreateRunner(runner, w.at);
        stored := row.Ok?;
      }
      turns, now, last := Turned(s, turns, now, k, last, Luck(w.create, false, "", w.at, None));
      if !stored {
        turns, last := Compensate(s, turns, k, claim, w);
        return Err(NotStored), turns, last;
      }
      r := Ok(runner);
    }

    /** Terminate the instance and give the reservation back, ignoring what either call answers. */
    method Compensate(ghost s: System, ghost before: seq<Turn>, ghost k: string, claim: Claim, w: Weather)
      returns (ghost turns: seq<Turn>, ghost last: Phase)
      requires Possible(s, before) && History(s, before) == Seen(k, Stopping(claim, w.newName))
      modifies registry`pools, provider
      ensures Possible(s, turns) && History(s, turns) == Seen(k, last) && last.Failed?
    {
      hide History, Possible, IsSelection, ReleaseVerdict, Released;
      ghost var now := Seen(k, Stopping(claim, w.newName));
      var _ := provider.Terminate(w.newName, false, w.terminate);
      turns, now, last := Turned(s, before, now, k, Stopping(claim, w.newName), Luck(w.terminate, false, "", 0, None));
      var _ := registry.Release(claim);
      turns, now, last := Turned(s, turns, now, k, last, Luck(false, false, "", 0, None));
    }

    /** Gives a returned runner's reservation back; a runner without a pool holds none. */
    method Release(runner: Runner, ghost k: string) returns (err: Option<Capacity.Error>)
      modifies registry`pools
      ensures Seen(k, Retired(runner)) == Move(old(Seen(k, Succeeded(runner))), k, Luck(false, false, "", 0, None))
    {
      if runner.data.poolID == "" {
        return None;
      }
      err := registry.Release(Claim(runner.data.poolID, runner.data.cpu, runner.data.memoryGB, runner.data.gpu));
    }
  }
}
