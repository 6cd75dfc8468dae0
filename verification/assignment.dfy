/**
 Assigning a GitHub runner to a job (controller/internal/runners/runners.go:174-383): JIT configuration,
 provisioning, the durable record, registration, and the compensation of every failure. `Weather` says of each
 call whether it fails.
 */
module Assigning {
  import opened Common
  import opened Decimal
  import opened Records
  import opened Providers
  import opened Memory

  datatype Request = Request(job: Job, expiresAt: Time, cpu: int, memoryGB: int, gpu: bool, poolID: string)

  datatype JITConfig = JITConfig(encoded: string, runnerID: int, name: string)

  datatype GitHubRunner = GitHubRunner(id: int, name: string)

  datatype RegistrationState = RegistrationPending | RegistrationReady | RegistrationFailed

  datatype Registration = Registration(runnerID: string, jobID: string, gitHubID: nat, gitHubName: string,
    state: RegistrationState)

  datatype Assignment = Assignment(runner: Runner, registration: Registration)

  datatype AssignError =
    | InvalidRequest | InProgress | NoJITConfig | InvalidJITConfig
    | ProvisionFailed | NotReady | NotPersisted | NotReloaded
    | PendingNotRecorded | NotRegistered | WrongIdentity | ReadyNotSaved | ReadyNotRecorded

  /** The calls of the compensating closure; not every verifier can also remove a registration. */
  datatype Cleaning = Cleaning(load: bool, marking: bool, terminate: bool, removable: bool, remove: bool, finish: bool)

  datatype Weather = Weather(
    newName: string, createdAt: Time, at: Time, now: Time, jit: Option<JITConfig>, limit: int,
    provision: bool, waitReady: bool, cancelWait: bool, create: bool, reload: bool, pending: bool,
    registered: Option<GitHubRunner>,
    failing: bool, saveReady: bool, recordReady: bool, cleaning: Cleaning)

  predicate CleaningWorks(c: Cleaning) {
    !c.load && !c.marking && !c.terminate && !(c.removable && c.remove) && !c.finish
  }

  function Name(s: RegistrationState): string {
    match s
    case RegistrationPending => "pending"
    case RegistrationReady => "ready"
    case RegistrationFailed => "failed"
  }

  function EventID(runnerID: string, s: RegistrationState): string {
    "runner-registration/" + runnerID + "/" + Name(s)
  }

  function RegistrationEvent(r: Registration, at: Time): Event {
    Event(EventID(r.runnerID, r.state), EventID(r.runnerID, r.state), "runner.registration." + Name(r.state),
      r.jobID, "", r.runnerID, "github", at,
      map["github_runner_id" := Numeral(r.gitHubID), "github_runner_name" := r.gitHubName,
        "registration_state" := Name(r.state)])
  }

  function ProvisioningRecord(q: Request, w: Weather): Runner {
    Record(w.newName, w.createdAt, NO_TIME, 0, RunnerData(q.job.id, "", "fake", w.newName, q.poolID, q.cpu, q.memoryGB,
      if q.gpu then 1 else 0, "", q.job.data.labels, RunnerProvisioning, q.job.data.owner, q.job.data.expiresAt))
  }

  predicate UsableJIT(j: JITConfig) {
    j.encoded != "" && j.runnerID > 0 && !Blank(j.name)
  }

  predicate Confirmed(j: JITConfig, w: Weather) {
    w.registered.Some? && w.registered.value.id == j.runnerID && Trim(w.registered.value.name) == j.name
  }

  /** The registration of this job's new runner. */
  function Registering(q: Request, j: JITConfig, w: Weather, s: RegistrationState): Registration
    requires j.runnerID >= 0
  {
    Registration(w.newName, q.job.id, j.runnerID, j.name, s)
  }

  /** The event's key is new, or holds an equal event already. */
  predicate Recordable(events: Events, e: Event) {
    e.key in events ==> SameEvent(events[e.key], e)
  }

  /** The first call that fails once the runner is stored and reloaded. */
  function ConfirmObstacle(q: Request, j: JITConfig, w: Weather, events: Events): Option<AssignError>
    requires UsableJIT(j)
  {
    if w.pending || !Recordable(events, RegistrationEvent(Registering(q, j, w, RegistrationPending), w.now)) then
      Some(PendingNotRecorded)
    else if w.registered.None? then Some(NotRegistered)
    else if !Confirmed(j, w) then Some(WrongIdentity)
    else ActivateObstacle(q, j, w, events)
  }

  function ActivateObstacle(q: Request, j: JITConfig, w: Weather, events: Events): Option<AssignError>
    requires UsableJIT(j)
  {
    if w.saveReady then Some(ReadyNotSaved)
    else if w.recordReady || !Recordable(events, RegistrationEvent(Registering(q, j, w, RegistrationReady), w.now)) then
      Some(ReadyNotRecorded)
    else None
  }

  /** Recording another step leaves open whether the last one can be recorded. */
  lemma ReadyIsOpen(q: Request, j: JITConfig, w: Weather, events: Events, events': Events)
    requires UsableJIT(j)
    requires forall k | k != EventID(w.newName, RegistrationPending) :: Get(events', k) == Get(events, k)
    ensures ActivateObstacle(q, j, w, events') == ActivateObstacle(q, j, w, events)
  {
    hide SameEvent;
    EventIDIsInjective(w.newName, RegistrationReady, w.newName, RegistrationPending);
    hide EventID, Name;
    var ready := EventID(w.newName, RegistrationReady);
    assert Get(events', ready) == Get(events, ready);
  }

  /** Whether the registered runner is the configured one. */
  lemma ConfirmedMeans(j: JITConfig, w: Weather)
    ensures Confirmed(j, w) <==>
      w.registered.Some? && w.registered.value.id == j.runnerID && Trim(w.registered.value.name) == j.name
  {
  }

  /** The first call that fails once the instance is ready. */
  function StoreObstacle(q: Request, j: JITConfig, w: Weather, s: Store): Option<AssignError>
    requires UsableJIT(j)
  {
    if w.create || w.newName in s.runners then Some(NotPersisted)
    else if w.reload then Some(NotReloaded)
    else ConfirmObstacle(q, j, w, s.events)
  }

  /** The first call of an assignment that fails. */
  function CarryObstacle(q: Request, w: Weather, s: Store, cloud: Cloud): Option<AssignError> {
    if w.jit.None? then Some(NoJITConfig)
    else if !UsableJIT(w.jit.value) then Some(InvalidJITConfig)
    else if w.provision || (w.limit > 0 && |Active(cloud)| >= w.limit) then Some(ProvisionFailed)
    else if w.waitReady || w.cancelWait then Some(NotReady)
    else StoreObstacle(q, w.jit.value, w, s)
  }

  function Obstacle(q: Request, w: Weather, inflight: set<string>, s: Store, cloud: Cloud): Option<AssignError> {
    if q.job.id == "" || q.job.data.repository == "" || q.expiresAt == NO_TIME then Some(InvalidRequest)
    else if q.job.id in inflight then Some(InProgress)
    else CarryObstacle(q, w, s, cloud)
  }

  function ErrorOf(r: Result<Assignment, AssignError>): Option<AssignError> {
    match r case Ok(_) => None case Err(e) => Some(e)
  }

  /**
   An assignment succeeds exactly if the request is complete, its job is not in flight, every call works, the name is
   new to the store, its events conflict with none, and the runner that registered has the configured id and name.
   */
  lemma SucceedsIff(q: Request, w: Weather, inflight: set<string>, s: Store, cloud: Cloud)
    ensures Obstacle(q, w, inflight, s, cloud).None? <==>
      && q.job.id != "" && q.job.data.repository != "" && q.expiresAt != NO_TIME && q.job.id !in inflight
      && w.jit.Some? && w.jit.value.encoded != "" && w.jit.value.runnerID > 0 && Trim(w.jit.value.name) != ""
      && !w.provision && (w.limit <= 0 || |Active(cloud)| < w.limit) && !w.waitReady && !w.cancelWait
      && !w.create && w.newName !in s.runners && !w.reload && !w.pending && !w.saveReady && !w.recordReady
      && w.registered.Some? && w.registered.value.id == w.jit.value.runnerID
      && Trim(w.registered.value.name) == w.jit.value.name
      && forall state | state in {RegistrationPending, RegistrationReady} ::
          Recordable(s.events, RegistrationEvent(Registering(q, w.jit.value, w, state), w.now))
  {
    hide Recordable, RegistrationEvent, Active;
    if w.jit.Some? {
      TrimmedAway(w.jit.value.name);
    }
  }

  /** Nothing is left of a text by trimming exactly if it is blank. */
  lemma {:induction false} TrimmedAway(t: string)
    ensures Trim(t) == "" <==> Blank(t)
    decreases |t|
  {
    if t != [] && IsSpace(t[0]) {
      TrimmedAway(t[1..]);
      assert t == [t[0]] + t[1..];
    } else if t != [] && IsSpace(t[|t| - 1]) {
      TrimmedAway(t[..|t| - 1]);
      assert t == t[..|t| - 1] + [t[|t| - 1]];
    }
  }

  /** What a delivered assignment has written, in the request's and the configuration's own terms. */
  lemma DeliveredMeans(s: Store, cloud: Cloud, q: Request, w: Weather)
    requires Delivered(s, cloud, q, w)
    ensures var d := s.runners[w.newName].data;
      && d.state == RunnerReady && d.jobID == q.job.id && d.instanceID == w.newName && d.poolID == q.poolID
      && d.cpu == q.cpu && d.memoryGB == q.memoryGB && (d.gpu == 1 <==> q.gpu) && (d.gpu == 0 <==> !q.gpu)
      && d.labels == q.job.data.labels && d.owner == q.job.data.owner && d.expiresAt == q.job.data.expiresAt
    ensures forall state | state in {RegistrationPending, RegistrationReady} ::
      var key := EventID(w.newName, state);
      && key in s.events && s.events[key].jobID == q.job.id && s.events[key].runnerID == w.newName
      && s.events[key].occurredAt == w.now
  {
  }

  lemma NamesDiffer(a: RegistrationState, b: RegistrationState)
    ensures '/' !in Name(a) && (Name(a) == Name(b) ==> a == b)
  {
    assert |"pending"| == 7 && |"ready"| == 5 && |"failed"| == 6;
  }

  /** What follows the last slash. */
  function LastPart(t: string): string {
    if t == "" || t[|t| - 1] == '/' then "" else LastPart(t[..|t| - 1]) + [t[|t| - 1]]
  }

  lemma {:induction false} LastPartFollowsSlash(a: string, x: string)
    requires '/' !in x
    ensures LastPart(a + "/" + x) == x
  {
    if x == "" {
      assert a + "/" + x == a + "/";
    } else {
      var t, front := a + "/" + x, x[..|x| - 1];
      assert t[..|t| - 1] == a + "/" + front && t[|t| - 1] == x[|x| - 1];
      LastPartFollowsSlash(a, front);
      assert x == front + [x[|x| - 1]];
    }
  }

  /** Every registration step of every runner has an event key of its own, whatever the runners are called. */
  lemma EventIDIsInjective(a: string, x: RegistrationState, b: string, y: RegistrationState)
    ensures EventID(a, x) == EventID(b, y) <==> a == b && x == y
  {
    NamesDiffer(x, y);
    NamesDiffer(y, x);
    if EventID(a, x) == EventID(b, y) {
      var p := "runner-registration/";
      LastPartFollowsSlash(p + a, Name(x));
      LastPartFollowsSlash(p + b, Name(y));
      assert EventID(a, x) == p + a + "/" + Name(x) && EventID(b, y) == p + b + "/" + Name(y);
      assert a == EventID(a, x)[|p|..|p| + |a|] && b == EventID(b, y)[|p|..|p| + |b|];
    }
  }

  /** The event is stored under its key, as it was or as an equal event from before. */
  predicate Recorded(events: Events, e: Event) {
    e.key in events && SameEvent(events[e.key], e)
  }

  /** What a successful assignment leaves: a ready record, both registration events and a live instance. */
  predicate Delivered(s: Store, cloud: Cloud, q: Request, w: Weather) {
    && w.jit.Some? && UsableJIT(w.jit.value)
    && w.newName in s.runners && s.runners[w.newName].data == ProvisioningRecord(q, w).data.(state := RunnerReady)
    && Recorded(s.events, RegistrationEvent(Registering(q, w.jit.value, w, RegistrationPending), w.now))
    && Recorded(s.events, RegistrationEvent(Registering(q, w.jit.value, w, RegistrationReady), w.now))
    && Get(cloud, w.newName) == Some(StatusReady)
  }

  /** A record says Terminated only when its instance is terminated. */
  predicate TruthfulEnd(s: Store, cloud: Cloud, id: string) {
    id in s.runners && s.runners[id].data.state == RunnerTerminated ==> Gone(Get(cloud, id))
  }

  /** The reload after a successful CreateRunner failed, which empties the runner variable. */
  predicate Stranded(runners: Table<RunnerData>, w: Weather) {
    !w.waitReady && !w.cancelWait && !w.create && w.newName !in runners && w.reload
  }

  /** The instance is stopped and its record, if this assignment wrote one, says so. */
  predicate Unwound(before: Table<RunnerData>, runners: Table<RunnerData>, cloud: Cloud, id: string) {
    && Get(cloud, id) == Some(StatusTerminated)
    && (runners != before ==> id in runners && runners[id].data.state == RunnerTerminated)
  }

  predicate OnlyRunnerChanged(s: Store, s': Store, id: string) {
    && s'.jobs == s.jobs && s'.leases == s.leases && s'.runners.Keys <= s.runners.Keys + {id}
    && (forall k | k in s.runners && k != id :: k in s'.runners && s'.runners[k] == s.runners[k])
  }

  /** Stored events stay as they are. */
  predicate EventsKept(s: Store, s': Store) {
    forall k | k in s.events :: k in s'.events && s'.events[k] == s.events[k]
  }

  lemma RowKnowsItsID(t: Table<RunnerData>, id: string)
    requires ValidTable(t)
    ensures (id in t ==> t[id].id == id) && "" !in t
  {
  }

  class Service {
    const state: MemoryRepository
    const provider: FakeProvider
    var inflight: set<string>

    constructor (state: MemoryRepository, provider: FakeProvider)
      ensures this.state == state && this.provider == provider && inflight == {}
    {
      this.state, this.provider, inflight := state, provider, {};
    }

    method BeginAssignment(jobID: string) returns (ok: bool)
      modifies this
      ensures ok == (jobID !in old(inflight)) && inflight == old(inflight) + {jobID}
    {
      if jobID in inflight {
        assert inflight == inflight + {jobID};
        return false;
      }
      inflight := inflight + {jobID};
      ok := true;
    }

    method EndAssignment(jobID: string)
      modifies this
      ensures inflight == old(inflight) - {jobID}
    {
      inflight := inflight - {jobID};
    }

    method PersistRegistration(r: Registration, at: Time, fail: bool) returns (ok: bool)
      modifies state`events
      ensures ok ==> Recorded(state.events, RegistrationEvent(r, at))
      ensures EventsKept(old(state.Contents()), state.Contents())
      ensures ok == (!fail && Recordable(old(state.events), RegistrationEvent(r, at)))
      ensures forall k | k != EventID(r.runnerID, r.state) :: Get(state.events, k) == Get(old(state.events), k)
    {
      if fail {
        return false;
      }
      var inserted := state.InsertLifecycleEvent(RegistrationEvent(r, at));
      ok := inserted.Ok?;
    }

    /** CreateRunner, unless it is told to fail. */
    method Persist(runner: Runner, fail: bool, at: Time) returns (ok: bool)
      requires ValidTable(state.runners) && runner.id != ""
      modifies state`runners
      ensures ValidTable(state.runners) && ok == (!fail && runner.id !in old(state.runners))
      ensures !ok ==> state.runners == old(state.runners)
      ensures ok ==>
        && state.runners.Keys == old(state.runners).Keys + {runner.id} && state.runners[runner.id].data == runner.data
        && forall id | id in old(state.runners) :: state.runners[id] == old(state.runners)[id]
    {
      if fail {
        return false;
      }
      var row := state.CreateRunner(runner, at);
      ok := row.Ok?;
    }

    /** A conditional save of the stored runner in a new state, at its own revision. */
    method SaveState(runner: Runner, to: RunnerState, fail: bool, at: Time) returns (saved: Option<Runner>)
      requires ValidTable(state.runners) && Get(state.runners, runner.id) == Some(runner)
      modifies state`runners
      ensures ValidTable(state.runners) && saved.Some? == !fail
      ensures state.runners == if saved.Some? then old(state.runners)[runner.id := saved.value] else old(state.runners)
      ensures saved.Some? ==> saved.value.id == runner.id && saved.value.data == runner.data.(state := to)
    {
      if fail {
        return None;
      }
      var row := state.SaveRunner(runner.(data := runner.data.(state := to)), runner.revision, at);
      saved := match row case Ok(r) => Some(r) case Err(_) => None;
    }

    /** The compensating closure: `runnerID` is what the runner variable holds when it is called. */
    method Cleanup(runnerID: string, persisted: bool, instance: string, w: Weather) returns (completed: bool)
      requires ValidTable(state.runners) && instance in provider.instances
      modifies provider, state`runners
      ensures ValidTable(state.runners) && OnlyRunnerChanged(old(state.Contents()), state.Contents(), runnerID)
      ensures provider.instances == old(provider.instances) ||
        provider.instances == old(provider.instances)[instance := StatusTerminated]
      ensures completed ==> provider.instances[instance] == StatusTerminated
      ensures completed && persisted ==>
        && runnerID in state.runners && runnerID in old(state.runners)
        && state.runners[runnerID].data == old(state.runners)[runnerID].data.(state := RunnerTerminated)
      ensures !persisted ==> state.runners == old(state.runners)
      ensures state.runners != old(state.runners) && runnerID in state.runners ==>
        state.runners[runnerID].data.state == RunnerTerminated ==> provider.instances[instance] == StatusTerminated
      ensures persisted && runnerID !in old(state.runners) ==>
        !completed && provider.instances == old(provider.instances) && state.runners == old(state.runners)
      ensures CleaningWorks(w.cleaning) && (persisted ==> runnerID in old(state.runners)) ==> completed
    {
      hide ValidTable;
      var runner: Runner;
      if persisted {
        if w.cleaning.load || runnerID !in state.runners {
          return false;
        }
        RowKnowsItsID(state.runners, runnerID);
        var marked := SaveState(state.runners[runnerID], RunnerTerminating, w.cleaning.marking, w.at);
        if marked.None? {
          return false;
        }
        runner := marked.value;
      }
      var stopped := provider.Terminate(instance, false, w.cleaning.terminate);
      if !stopped {
        return false;
      }
      if w.cleaning.removable && w.cleaning.remove {
        return false;
      }
      if persisted {
        var ended := SaveState(runner, RunnerTerminated, w.cleaning.finish, w.at);
        if ended.None? {
          return false;
        }
      }
      completed := true;
    }

    /** From a confirmed registration to a ready record and its event. */
    method Activate(q: Request, j: JITConfig, w: Weather, loaded: Runner, pending: Registration)
      returns (r: Result<Assignment, AssignError>)
      requires UsableJIT(j) && w.jit == Some(j) && loaded.data == ProvisioningRecord(q, w).data
      requires pending == Registering(q, j, w, RegistrationPending)
      requires w.registered.Some? && w.registered.value.id == j.runnerID && Trim(w.registered.value.name) == j.name
      requires Recorded(state.events, RegistrationEvent(pending, w.now))
      requires ValidTable(state.runners) && w.newName in state.runners && state.runners[w.newName] == loaded
      requires Get(provider.instances, w.newName) == Some(StatusReady)
      modifies provider, state`runners, state`events
      ensures OnlyRunnerChanged(old(state.Contents()), state.Contents(), w.newName)
      ensures EventsKept(old(state.Contents()), state.Contents())
      ensures provider.instances == old(provider.instances) ||
        provider.instances == old(provider.instances)[w.newName := StatusTerminated]
      ensures ErrorOf(r) == ActivateObstacle(q, j, w, old(state.events))
      ensures r.Ok? ==>
        && w.registered.Some? && w.registered.value.id == w.jit.value.runnerID
        && Trim(w.registered.value.name) == w.jit.value.name
      ensures r.Ok? ==> Delivered(state.Contents(), provider.instances, q, w)
      ensures r.Ok? ==>
        && r.value.runner.id == w.newName && r.value.runner.data == state.runners[w.newName].data
        && r.value.registration == Registering(q, j, w, RegistrationReady)
      ensures TruthfulEnd(state.Contents(), provider.instances, w.newName)
      ensures r.Err? && CleaningWorks(w.cleaning) ==>
        && Get(provider.instances, w.newName) == Some(StatusTerminated)
        && w.newName in state.runners && state.runners[w.newName].data.state == RunnerTerminated
    {
      hide SameEvent, RegistrationEvent, Inserted, CleaningWorks, Confirmed, EventID, Name, ValidTable;
      RowKnowsItsID(state.runners, w.newName);
      var runner := loaded;
      var saved := SaveState(runner, RunnerReady, w.saveReady, w.at);
      runner := runner.(data := runner.data.(state := RunnerReady));
      if saved.None? {
        var _ := Cleanup(runner.id, true, w.newName, w);
        return Err(ReadyNotSaved);
      }
      var ready := pending.(state := RegistrationReady);
      var confirmed := PersistRegistration(ready, w.now, w.recordReady);
      if !confirmed {
        var _ := Cleanup(runner.id, true, w.newName, w);
        return Err(ReadyNotRecorded);
      }
      r := Ok(Assignment(runner, ready));
    }

    /** From a stored and reloaded runner to a confirmed registration. */
    method Confirm(q: Request, j: JITConfig, w: Weather, loaded: Runner) returns (r: Result<Assignment, AssignError>)
      requires UsableJIT(j) && w.jit == Some(j) && loaded.data == ProvisioningRecord(q, w).data
      requires ValidTable(state.runners) && w.newName in state.runners && state.runners[w.newName] == loaded
      requires Get(provider.instances, w.newName) == Some(StatusReady)
      modifies provider, state`runners, state`events
      ensures OnlyRunnerChanged(old(state.Contents()), state.Contents(), w.newName)
      ensures EventsKept(old(state.Contents()), state.Contents())
      ensures provider.instances == old(provider.instances) ||
        provider.instances == old(provider.instances)[w.newName := StatusTerminated]
      ensures ErrorOf(r) == ConfirmObstacle(q, j, w, old(state.events))
      ensures r.Ok? ==>
        && w.registered.Some? && w.registered.value.id == w.jit.value.runnerID
        && Trim(w.registered.value.name) == w.jit.value.name
      ensures r.Ok? ==> Delivered(state.Contents(), provider.instances, q, w)
      ensures r.Ok? ==>
        && r.value.runner.id == w.newName && r.value.runner.data == state.runners[w.newName].data
        && r.value.registration == Registering(q, j, w, RegistrationReady)
      ensures TruthfulEnd(state.Contents(), provider.instances, w.newName)
      ensures r.Err? && CleaningWorks(w.cleaning) ==>
        && Get(provider.instances, w.newName) == Some(StatusTerminated)
        && w.newName in state.runners && state.runners[w.newName].data.state == RunnerTerminated
    {
      hide SameEvent, Recordable, RegistrationEvent, ActivateObstacle, Inserted;
      hide CleaningWorks, Confirmed, EventID, Name;
      var runner := loaded;
      var pending := Registering(q, j, w, RegistrationPending);
      ConfirmedMeans(j, w);
      var recorded := PersistRegistration(pending, w.now, w.pending);
      if !recorded {
        var _ := Cleanup(runner.id, true, w.newName, w);
        return Err(PendingNotRecorded);
      }
      if !Confirmed(j, w) {
        var failed := pending.(state := RegistrationFailed);
        var _ := PersistRegistration(failed, w.now, w.failing);
        var _ := Cleanup(runner.id, true, w.newName, w);
        return Err(if w.registered.None? then NotRegistered else WrongIdentity);
      }
      ReadyIsOpen(q, j, w, old(state.events), state.events);
      r := Activate(q, j, w, runner, pending);
    }

    /** From a ready instance, through its record, to a confirmed registration or to cleanup. */
    method StoreRunner(q: Request, j: JITConfig, w: Weather) returns (r: Result<Assignment, AssignError>)
      requires ValidTable(state.runners) && w.newName != "" && UsableJIT(j) && w.jit == Some(j)
      requires Get(provider.instances, w.newName) == Some(StatusReady)
      modifies provider, state`runners, state`events
      ensures OnlyRunnerChanged(old(state.Contents()), state.Contents(), w.newName)
      ensures EventsKept(old(state.Contents()), state.Contents())
      ensures provider.instances == old(provider.instances) ||
        provider.instances == old(provider.instances)[w.newName := StatusTerminated]
      ensures ErrorOf(r) == StoreObstacle(q, j, w, old(state.Contents()))
      ensures r.Ok? ==>
        && w.registered.Some? && w.registered.value.id == w.jit.value.runnerID
        && Trim(w.registered.value.name) == w.jit.value.name
      ensures r.Ok? ==> Delivered(state.Contents(), provider.instances, q, w)
      ensures r.Ok? ==>
        && r.value.runner.id == w.newName && r.value.runner.data == state.runners[w.newName].data
        && r.value.registration == Registering(q, j, w, RegistrationReady)
      ensures state.runners != old(state.runners) ==> TruthfulEnd(state.Contents(), provider.instances, w.newName)
      ensures r.Err? && CleaningWorks(w.cleaning) ==>
        (Unwound(old(state.runners), state.runners, provider.instances, w.newName) <==>
          !(!w.create && w.newName !in old(state.runners) && w.reload))
    {
      hide Recorded, Delivered, RegistrationEvent, CleaningWorks, UsableJIT, Confirmed, Active, ValidTable;
      var runner := ProvisioningRecord(q, w);
      var created := Persist(runner, w.create, w.at);
      if !created {
        var _ := Cleanup(runner.id, false, w.newName, w);
        return Err(NotPersisted);
      }
      if w.reload {
        // the failed GetRunner overwrites the variable with the zero Runner
        RowKnowsItsID(state.runners, "");
        var _ := Cleanup("", true, w.newName, w);
        return Err(NotReloaded);
      }
      RowKnowsItsID(state.runners, runner.id);
      runner := state.runners[runner.id];
      r := Confirm(q, j, w, runner);
    }

    /** From a provisioned instance to a confirmed registration or to cleanup. */
    method Register(q: Request, j: JITConfig, w: Weather) returns (r: Result<Assignment, AssignError>)
      requires ValidTable(state.runners) && w.newName != "" && UsableJIT(j) && w.jit == Some(j)
      requires Get(provider.instances, w.newName) == Some(StatusProvisioning)
      modifies provider, state`runners, state`events
      ensures OnlyRunnerChanged(old(state.Contents()), state.Contents(), w.newName)
      ensures EventsKept(old(state.Contents()), state.Contents())
      ensures w.newName in provider.instances
      ensures forall i | i != w.newName :: Get(provider.instances, i) == Get(old(provider.instances), i)
      ensures ErrorOf(r) ==
        if w.waitReady || w.cancelWait then Some(NotReady) else StoreObstacle(q, j, w, old(state.Contents()))
      ensures r.Ok? ==>
        && w.registered.Some? && w.registered.value.id == w.jit.value.runnerID
        && Trim(w.registered.value.name) == w.jit.value.name
      ensures r.Ok? ==> Delivered(state.Contents(), provider.instances, q, w)
      ensures r.Ok? ==>
        && r.value.runner.id == w.newName && r.value.runner.data == state.runners[w.newName].data
        && r.value.registration == Registering(q, j, w, RegistrationReady)
      ensures state.runners != old(state.runners) ==> TruthfulEnd(state.Contents(), provider.instances, w.newName)
      ensures r.Err? && CleaningWorks(w.cleaning) ==>
        (Unwound(old(state.runners), state.runners, provider.instances, w.newName) <==>
          !Stranded(old(state.runners), w))
    {
      hide Recorded, Delivered, RegistrationEvent, CleaningWorks, UsableJIT, Confirmed, Active;
      var ready := provider.WaitReady(w.newName, w.waitReady, w.cancelWait);
      if !ready {
        var _ := Cleanup("", false, w.newName, w);
        return Err(NotReady);
      }
      r := StoreRunner(q, j, w);
    }

    /** From JIT configuration to outcome, once this job is marked in flight. */
    method Carry(q: Request, w: Weather) returns (r: Result<Assignment, AssignError>)
      requires ValidTable(state.runners) && w.newName != "" && w.newName !in provider.instances
      modifies provider, state`runners, state`events
      ensures OnlyRunnerChanged(old(state.Contents()), state.Contents(), w.newName)
      ensures EventsKept(old(state.Contents()), state.Contents())
      ensures forall i | i != w.newName :: Get(provider.instances, i) == Get(old(provider.instances), i)
      ensures ErrorOf(r) == CarryObstacle(q, w, old(state.Contents()), old(provider.instances))
      ensures r.Ok? ==>
        && w.registered.Some? && w.registered.value.id == w.jit.value.runnerID
        && Trim(w.registered.value.name) == w.jit.value.name
      ensures r.Ok? ==> Delivered(state.Contents(), provider.instances, q, w)
      ensures r.Ok? ==>
        && r.value.runner.id == w.newName && r.value.runner.data == state.runners[w.newName].data
        && r.value.registration == Registering(q, w.jit.value, w, RegistrationReady)
      ensures state.runners != old(state.runners) ==> TruthfulEnd(state.Contents(), provider.instances, w.newName)
      ensures w.newName !in provider.instances ==> r.Err? && state.Contents() == old(state.Contents())
      ensures r.Err? && w.newName in provider.instances && CleaningWorks(w.cleaning) ==>
        (Unwound(old(state.runners), state.runners, provider.instances, w.newName) <==>
          !Stranded(old(state.runners), w))
    {
      hide Recorded, Delivered, RegistrationEvent, CleaningWorks, UsableJIT, Confirmed, Active;
      if w.jit.None? {
        return Err(NoJITConfig);
      }
      var j := w.jit.value;
      if !UsableJIT(j) {
        return Err(InvalidJITConfig);
      }
      var instance := provider.Provision(w.newName, w.limit, w.provision);
      if instance.Err? {
        return Err(ProvisionFailed);
      }
      r := Register(q, j, w);
    }

    /** Assign: one assignment per job at a time. */
    method Assign(q: Request, w: Weather) returns (r: Result<Assignment, AssignError>)
      requires ValidTable(state.runners) && w.newName != "" && w.newName !in provider.instances
      modifies this, provider, state`runners, state`events
      ensures inflight == old(inflight)
      ensures q.job.id in old(inflight) ==>
        r.Err? && state.Contents() == old(state.Contents()) && provider.instances == old(provider.instances)
      ensures OnlyRunnerChanged(old(state.Contents()), state.Contents(), w.newName)
      ensures EventsKept(old(state.Contents()), state.Contents())
      ensures forall i | i != w.newName :: Get(provider.instances, i) == Get(old(provider.instances), i)
      ensures ErrorOf(r) == Obstacle(q, w, old(inflight), old(state.Contents()), old(provider.instances))
      ensures r.Ok? ==>
        && w.registered.Some? && w.registered.value.id == w.jit.value.runnerID
        && Trim(w.registered.value.name) == w.jit.value.name
      ensures r.Ok? ==> Delivered(state.Contents(), provider.instances, q, w)
      ensures r.Ok? ==>
        && r.value.runner.id == w.newName && r.value.runner.data == state.runners[w.newName].data
        && r.value.registration == Registering(q, w.jit.value, w, RegistrationReady)
      ensures state.runners != old(state.runners) ==> TruthfulEnd(state.Contents(), provider.instances, w.newName)
      ensures w.newName !in provider.instances ==> r.Err? && state.Contents() == old(state.Contents())
      ensures r.Err? && w.newName in provider.instances && CleaningWorks(w.cleaning) ==>
        (Unwound(old(state.runners), state.runners, provider.instances, w.newName) <==>
          !Stranded(old(state.runners), w))
    {
      if q.job.id == "" || q.job.data.repository == "" || q.expiresAt == NO_TIME {
        return Err(InvalidRequest);
      }
      var begun := BeginAssignment(q.job.id);
      if !begun {
        return Err(InProgress);
      }
      r := Carry(q, w);
      EndAssignment(q.job.id);
    }
  }

  // ---------------------------------------------------------------- at most one assignment per job

  /** A caller of Assign, seen at its lock-protected steps. */
  datatype Caller = Waiting(job: string) | Assigning(job: string) | Refused(job: string) | Finished(job: string)

  datatype Crowd = Crowd(inflight: set<string>, callers: map<string, Caller>)

  /** The next lock-protected step of one caller: BeginAssignment or EndAssignment. */
  function Turn(c: Crowd, who: string): Crowd {
    if who !in c.callers then c
    else match c.callers[who]
      case Waiting(job) =>
        if job in c.inflight then c.(callers := c.callers[who := Refused(job)])
        else Crowd(c.inflight + {job}, c.callers[who := Assigning(job)])
      case Assigning(job) => Crowd(c.inflight - {job}, c.callers[who := Finished(job)])
      case _ => c
  }

  function Turns(c: Crowd, order: seq<string>): Crowd {
    if order == [] then c else Turn(Turns(c, order[..|order| - 1]), order[|order| - 1])
  }

  ghost predicate Exclusive(c: Crowd) {
    && (forall a, b | a in c.callers && b in c.callers && c.callers[a].Assigning? && c.callers[b].Assigning?
          && c.callers[a].job == c.callers[b].job :: a == b)
    && (forall job :: job in c.inflight <==> exists a :: a in c.callers && c.callers[a] == Assigning(job))
  }

  lemma TurnKeepsExclusive(c: Crowd, who: string)
    requires Exclusive(c)
    ensures Exclusive(Turn(c, who))
  {
    var d := Turn(c, who);
    forall job ensures job in d.inflight <==> exists a :: a in d.callers && d.callers[a] == Assigning(job) {
      if a :| a in c.callers && c.callers[a] == Assigning(job) && a != who {
        assert d.callers[a] == Assigning(job);
      }
      if who in d.callers && d.callers[who] == Assigning(job) {
        assert job in d.inflight;
      }
    }
  }

  /** In every interleaving of any number of callers, at most one is between begin and end for a job. */
  lemma {:induction false} OneAssignmentPerJob(c: Crowd, order: seq<string>)
    requires c.inflight == {} && forall a | a in c.callers :: c.callers[a].Waiting?
    ensures Exclusive(Turns(c, order))
  {
    if order == [] {
    } else {
      OneAssignmentPerJob(c, order[..|order| - 1]);
      TurnKeepsExclusive(Turns(c, order[..|order| - 1]), order[|order| - 1]);
    }
  }
}
