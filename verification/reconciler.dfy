/**
 The reconciler (controller/internal/lifecycle/reconciler.go). Five loops over maps, each in whatever order
 the map yields, with any set of calls failing. Each loop is proved to be safe on every store, and on an
 indexed store to take every cell through its own step (module Cells), independently of all other cells.
 */
module Reconciling {
  import opened Common
  import opened Records
  import opened Memory
  import opened Providers
  import opened Cells
  import Ordering

  datatype World = World(jobs: Table<JobData>, runners: Table<RunnerData>, leases: Table<LeaseData>, live: Cloud)

  ghost predicate ValidWorld(w: World) {
    ValidTable(w.jobs) && ValidTable(w.runners) && ValidTable(w.leases)
  }

  // ---------------------------------------------------------------- safety of a change

  ghost predicate SafeWorld(w: World, w': World) {
    && ValidWorld(w')
    && w'.jobs.Keys == w.jobs.Keys && w'.runners.Keys == w.runners.Keys && w'.leases.Keys == w.leases.Keys
    && (forall j | j in w.jobs :: SafeJob(w.jobs[j], w'.jobs[j]))
    && (forall l | l in w.leases :: SafeLease(w.leases[l], w'.leases[l]))
    && (forall r | r in w.runners :: SafeRunner(w.runners[r], Get(w.live, r), w'.runners[r], Get(w'.live, r)))
    && (forall r | r !in w.runners :: Get(w'.live, r) == Get(w.live, r))
  }

  lemma SafeRunnerTransitive(
    a: Runner, la: Option<Status>, b: Runner, lb: Option<Status>, c: Runner, lc: Option<Status>)
    requires SafeRunner(a, la, b, lb) && SafeRunner(b, lb, c, lc)
    ensures SafeRunner(a, la, c, lc)
  {
  }

  lemma SafeTransitive(a: World, b: World, c: World)
    requires SafeWorld(a, b) && SafeWorld(b, c)
    ensures SafeWorld(a, c)
  {
    hide SafeRunner, ValidTable;
    forall r | r in a.runners ensures SafeRunner(a.runners[r], Get(a.live, r), c.runners[r], Get(c.live, r)) {
      SafeRunnerTransitive(a.runners[r], Get(a.live, r), b.runners[r], Get(b.live, r), c.runners[r], Get(c.live, r));
    }
    forall j | j in a.jobs ensures SafeJob(a.jobs[j], c.jobs[j]) {
      assert SafeJob(a.jobs[j], b.jobs[j]) && SafeJob(b.jobs[j], c.jobs[j]);
    }
    forall l | l in a.leases ensures SafeLease(a.leases[l], c.leases[l]) {
      assert SafeLease(a.leases[l], b.leases[l]) && SafeLease(b.leases[l], c.leases[l]);
    }
  }

  ghost predicate ViewFresh(seen: Table<RunnerData>, w: World) {
    seen.Keys <= w.runners.Keys && forall r | r in seen :: Fresh(seen[r], w.runners[r])
  }

  // ---------------------------------------------------------------- cells of a world

  datatype Key = ForJob(job: string) | Loose(runner: string)

  /** Which runner and which lease belong to a job, and which runners belong to none. */
  datatype Index = Index(runnerOf: map<string, string>, leaseOf: map<string, string>, loose: set<string>)

  /** One runner and one lease per job at most, and a lease's runner carries the lease's job. */
  ghost predicate Indexed(w: World, ix: Index) {
    && ValidWorld(w)
    && (forall r | r in w.runners ::
      var j := w.runners[r].data.jobID;
      if j == "" then r in ix.loose else j in ix.runnerOf && ix.runnerOf[j] == r)
    && (forall r | r in ix.loose :: r in w.runners && w.runners[r].data.jobID == "")
    && (forall j | j in ix.runnerOf ::
        j != "" && ix.runnerOf[j] in w.runners && w.runners[ix.runnerOf[j]].data.jobID == j)
    && (forall l | l in w.leases :: var j := w.leases[l].data.jobID; j in ix.leaseOf && ix.leaseOf[j] == l)
    && (forall j | j in ix.leaseOf :: ix.leaseOf[j] in w.leases && w.leases[ix.leaseOf[j]].data.jobID == j)
    && (forall l | l in w.leases && w.leases[l].data.runnerID in w.runners ::
      w.runners[w.leases[l].data.runnerID].data.jobID == w.leases[l].data.jobID)
  }

  function RunnerName(ix: Index, k: Key): Option<string> {
    match k
    case ForJob(j) => Get(ix.runnerOf, j)
    case Loose(r) => if r in ix.loose then Some(r) else None
  }

  function LeaseName(ix: Index, k: Key): Option<string> {
    match k case ForJob(j) => Get(ix.leaseOf, j) case Loose(_) => None
  }

  function Find<V>(m: map<string, V>, name: Option<string>): Option<V> {
    if name.Some? then Get(m, name.value) else None
  }

  function CellAt(w: World, seen: Table<RunnerData>, ix: Index, k: Key): Cell {
    var r := RunnerName(ix, k);
    Cell(if k.ForJob? then Get(w.jobs, k.job) else None, Find(w.leases, LeaseName(ix, k)),
      Find(w.runners, r), Find(seen, r), Find(w.live, r))
  }

  function KeyOf(w: World, r: string): Key
    requires r in w.runners
  {
    if w.runners[r].data.jobID == "" then Loose(r) else ForJob(w.runners[r].data.jobID)
  }

  /** Every cell has taken `step`. */
  ghost predicate Advanced(w: World, seen: Table<RunnerData>, w': World, seen': Table<RunnerData>, ix: Index,
      step: Cell -> Cell) {
    && Indexed(w', ix)
    && forall k :: CellAt(w', seen', ix, k) == step(CellAt(w, seen, ix, k))
  }

  /** The cells in `done` have taken `step`, the others are untouched. */
  ghost predicate Advancing(
    w: World, seen: Table<RunnerData>, w': World, seen': Table<RunnerData>, ix: Index, step: Cell -> Cell,
      done: set<Key>)
  {
    && Indexed(w', ix)
    && forall k :: CellAt(w', seen', ix, k) ==
        if k in done then step(CellAt(w, seen, ix, k)) else CellAt(w, seen, ix, k)
  }

  /** A change confined to the records that belong to `k`. */
  ghost predicate OnlyAt(w: World, seen: Table<RunnerData>, w': World, seen': Table<RunnerData>, ix: Index, k: Key) {
    && SafeWorld(w, w')
    && (forall r | RunnerName(ix, k) != Some(r) ::
      Get(w'.runners, r) == Get(w.runners, r) && Get(seen', r) == Get(seen, r) && Get(w'.live, r) == Get(w.live, r))
    && (forall j | k != ForJob(j) :: Get(w'.jobs, j) == Get(w.jobs, j))
    && (forall l | LeaseName(ix, k) != Some(l) :: Get(w'.leases, l) == Get(w.leases, l))
  }

  lemma KeysDoNotShare(w: World, ix: Index, k: Key, k': Key)
    requires Indexed(w, ix) && k != k'
    ensures RunnerName(ix, k).Some? ==> RunnerName(ix, k) != RunnerName(ix, k')
    ensures LeaseName(ix, k).Some? ==> LeaseName(ix, k) != LeaseName(ix, k')
  {
  }

  lemma KeyHoldsItsRunner(w: World, ix: Index, r: string)
    requires Indexed(w, ix) && r in w.runners
    ensures RunnerName(ix, KeyOf(w, r)) == Some(r)
  {
  }

  lemma KeysOfRunnersDiffer(w: World, ix: Index, r: string)
    requires Indexed(w, ix) && r in w.runners
    ensures forall s | s in w.runners && s != r :: KeyOf(w, s) != KeyOf(w, r)
  {
  }

  lemma SafeKeepsIndex(w: World, w': World, ix: Index)
    requires Indexed(w, ix) && SafeWorld(w, w')
    ensures Indexed(w', ix)
  {
    hide SafeWorld, ValidTable;
    SafeKeepsNames(w, w');
  }

  lemma SafeKeepsNames(w: World, w': World)
    requires SafeWorld(w, w')
    ensures ValidWorld(w') && w'.runners.Keys == w.runners.Keys && w'.leases.Keys == w.leases.Keys
    ensures forall r | r in w.runners :: w'.runners[r].data.jobID == w.runners[r].data.jobID
    ensures forall l | l in w.leases ::
      w'.leases[l].data.jobID == w.leases[l].data.jobID && w'.leases[l].data.runnerID == w.leases[l].data.runnerID
  {
    hide ValidTable;
    forall r | r in w.runners ensures w'.runners[r].data.jobID == w.runners[r].data.jobID {
      assert SafeRunner(w.runners[r], Get(w.live, r), w'.runners[r], Get(w'.live, r));
    }
    forall l | l in w.leases
      ensures w'.leases[l].data.jobID == w.leases[l].data.jobID
      ensures w'.leases[l].data.runnerID == w.leases[l].data.runnerID
    {
      assert SafeLease(w.leases[l], w'.leases[l]);
    }
  }

  lemma OthersUntouched(w: World, seen: Table<RunnerData>, w': World, seen': Table<RunnerData>, ix: Index, k: Key,
      other: Key)
    requires Indexed(w, ix) && OnlyAt(w, seen, w', seen', ix, k) && other != k
    ensures CellAt(w', seen', ix, other) == CellAt(w, seen, ix, other)
  {
    hide SafeWorld, Indexed;
    KeysDoNotShare(w, ix, other, k);
  }

  lemma ConfinedIsSafe(w: World, seen: Table<RunnerData>, w': World, seen': Table<RunnerData>, ix: Index, k: Key)
    requires OnlyAt(w, seen, w', seen', ix, k)
    ensures SafeWorld(w, w')
  {
  }

  /** One iteration: a confined change that takes cell `k` through `step` adds `k` to the cells done. */
  lemma OneMore(
    w0: World, seen0: Table<RunnerData>, w: World, seen: Table<RunnerData>, w': World, seen': Table<RunnerData>,
    ix: Index, step: Cell -> Cell, done: set<Key>, k: Key)
    requires Advancing(w0, seen0, w, seen, ix, step, done) && k !in done
    requires OnlyAt(w, seen, w', seen', ix, k)
    requires CellAt(w', seen', ix, k) == step(CellAt(w, seen, ix, k))
    ensures Advancing(w0, seen0, w', seen', ix, step, done + {k})
  {
    hide CellAt, Indexed, SafeWorld, OnlyAt;
    ConfinedIsSafe(w, seen, w', seen', ix, k);
    SafeKeepsIndex(w, w', ix);
    forall other: Key
      ensures CellAt(w', seen', ix, other)
        == if other in done + {k} then step(CellAt(w0, seen0, ix, other)) else CellAt(w0, seen0, ix, other)
    {
      if other != k {
        OthersUntouched(w, seen, w', seen', ix, k, other);
      }
    }
  }

  // ---------------------------------------------------------------- the loops as functions on a cell

  function TruthOf(faults: Faults, at: Time): Cell -> Cell {
    c => TruthStep(c, faults, at)
  }

  function LeaseOf(faults: Faults, now: Time, at: Time): Cell -> Cell {
    c => LeaseStep(c, faults, now, at)
  }

  function JobOf(faults: Faults, now: Time, at: Time): Cell -> Cell {
    c => JobStep(c, faults, now, at)
  }

  function OrphanOf(faults: Faults, at: Time): Cell -> Cell {
    c => OrphanStep(c, faults, at)
  }

  function ReapOf(faults: Faults, now: Time, at: Time): Cell -> Cell {
    c => ReapStep(c, faults, now, at)
  }

  // ---------------------------------------------------------------- changes to one runner

  function PutRunner(w: World, r: Runner, live: Option<Status>): World {
    w.(runners := w.runners[r.id := r], live := if live.Some? then w.live[r.id := live.value] else w.live)
  }

  lemma NothingPut(w: World, seen: Table<RunnerData>, id: string)
    requires id in seen && id in w.runners && w.runners[id].id == id
    ensures w == PutRunner(w, w.runners[id], Get(w.live, id)) && seen == seen[id := seen[id]]
  {
  }

  lemma PutRunnerElsewhere(w: World, id: string, r: Runner, live: Option<Status>)
    requires r.id == id
    ensures forall s | s != id ::
      Get(PutRunner(w, r, live).runners, s) == Get(w.runners, s) && Get(PutRunner(w, r, live).live, s) == Get(w.live, s)
    ensures PutRunner(w, r, live).runners == w.runners[id := r]
    ensures PutRunner(w, r, live).jobs == w.jobs && PutRunner(w, r, live).leases == w.leases
    ensures live.Some? || id !in w.live ==> Get(PutRunner(w, r, live).live, id) == live
  {
  }

  lemma PutRunnerIsSafe(w: World, id: string, r: Runner, live: Option<Status>)
    requires ValidWorld(w) && id in w.runners && SafeRunner(w.runners[id], Get(w.live, id), r, live)
    ensures r.id == id && (live.Some? || id !in w.live) && SafeWorld(w, PutRunner(w, r, live))
  {
    var w' := PutRunner(w, r, live);
    assert r.id == id && r.revision >= 1;
    assert live.Some? || id !in w.live;
    PutRunnerElsewhere(w, id, r, live);
    forall s | s in w.runners ensures SafeRunner(w.runners[s], Get(w.live, s), w'.runners[s], Get(w'.live, s)) {
      if s != id {
        UnchangedIsSafe(w.runners[s], Get(w.live, s));
      }
    }
    hide SafeRunner, PutRunner;
  }

  lemma UnchangedIsSafe(r: Runner, live: Option<Status>)
    ensures SafeRunner(r, live, r, live)
  {
  }

  lemma PutRunnerKeepsView(w: World, seen: Table<RunnerData>, id: string, r: Runner, live: Option<Status>, v: Runner)
    requires ViewFresh(seen, w) && id in seen && r.id == id && Fresh(v, r)
    ensures ViewFresh(seen[id := v], PutRunner(w, r, live)) && seen[id := v].Keys == seen.Keys
  {
    hide Fresh;
  }

  /** A safe change to one runner is safe for the world and keeps the view fresh. */
  lemma RunnerChangeSafe(w: World, seen: Table<RunnerData>, id: string, r: Runner, live: Option<Status>, v: Runner)
    requires ValidWorld(w) && ViewFresh(seen, w) && id in seen
    requires SafeRunner(w.runners[id], Get(w.live, id), r, live) && Fresh(v, r)
    ensures r.id == id && (live.Some? || id !in w.live)
    ensures var w', seen' := PutRunner(w, r, live), seen[id := v];
      SafeWorld(w, w') && ViewFresh(seen', w') && seen'.Keys == seen.Keys
  {
    PutRunnerIsSafe(w, id, r, live);
    PutRunnerKeepsView(w, seen, id, r, live, v);
    hide SafeWorld, PutRunner, Fresh, SafeRunner;
  }

  /** The change stays within the runner's cell. */
  lemma RunnerChangeConfined(w: World, seen: Table<RunnerData>, id: string, r: Runner, live: Option<Status>,
      v: Runner, ix: Index)
    requires Indexed(w, ix) && ViewFresh(seen, w) && id in seen
    requires SafeRunner(w.runners[id], Get(w.live, id), r, live) && Fresh(v, r)
    ensures var w', seen', k := PutRunner(w, r, live), seen[id := v], KeyOf(w, id);
      && OnlyAt(w, seen, w', seen', ix, k)
      && CellAt(w', seen', ix, k) == CellAt(w, seen, ix, k).(runner := Some(r), seen := Some(v), live := live)
  {
    hide SafeWorld, Fresh, SafeRunner, PutRunner, Indexed, ViewFresh;
    IndexedIsValid(w, ix);
    ViewedIsStored(w, seen, id);
    RunnerChangeSafe(w, seen, id, r, live, v);
    KeyHoldsItsRunner(w, ix, id);
    PutRunnerElsewhere(w, id, r, live);
  }

  lemma ViewedIsStored(w: World, seen: Table<RunnerData>, id: string)
    requires ViewFresh(seen, w) && id in seen
    ensures id in w.runners && Fresh(seen[id], w.runners[id])
  {
  }

  lemma IndexedIsValid(w: World, ix: Index)
    requires Indexed(w, ix)
    ensures ValidWorld(w)
  {
  }

  /** Once every cell that `step` could change is done, all cells have taken it. */
  lemma AllDone(w0: World, seen0: Table<RunnerData>, w: World, seen: Table<RunnerData>, ix: Index,
      step: Cell -> Cell, done: set<Key>)
    requires Advancing(w0, seen0, w, seen, ix, step, done)
    requires forall k | k !in done :: step(CellAt(w0, seen0, ix, k)) == CellAt(w0, seen0, ix, k)
    ensures Advanced(w0, seen0, w, seen, ix, step)
  {
  }

  /** One iteration of a loop over runners: the runner's own part of the cell takes the step. */
  ghost predicate RunnerStep(step: Cell -> Cell, c: Cell, r: Runner, live: Option<Status>, v: Runner) {
    step(c) == c.(runner := Some(r), seen := Some(v), live := live)
  }

  /** What holds between two iterations of a loop over runners, with `todo` still to visit. */
  ghost predicate RunnerLoop(
    w0: World, seen0: Table<RunnerData>, w: World, seen: Table<RunnerData>, ix: Index, step: Cell -> Cell,
    todo: set<string>, done: set<Key>)
  {
    && todo <= seen0.Keys == seen.Keys <= w0.runners.Keys
    && SafeWorld(w0, w) && ViewFresh(seen, w)
    && (Indexed(w0, ix) ==>
      && Advancing(w0, seen0, w, seen, ix, step, done)
      && forall r | r in seen0 :: r in todo <==> KeyOf(w0, r) !in done)
  }

  lemma RunnerLoopStarts(w: World, seen: Table<RunnerData>, ix: Index, step: Cell -> Cell)
    requires ValidWorld(w) && ViewFresh(seen, w)
    ensures RunnerLoop(w, seen, w, seen, ix, step, seen.Keys, {})
  {
  }

  lemma UnvisitedHasNoRunner(w: World, seen: Table<RunnerData>, ix: Index, done: set<Key>, k: Key)
    requires Indexed(w, ix) && seen.Keys <= w.runners.Keys && k !in done
    requires forall r | r in seen :: KeyOf(w, r) in done
    ensures CellAt(w, seen, ix, k).seen.None?
  {
    var r := RunnerName(ix, k);
    assert r.Some? && r.value in w.runners ==> KeyOf(w, r.value) == k;
  }

  lemma RunnerLoopEnds(w0: World, seen0: Table<RunnerData>, w: World, seen: Table<RunnerData>, ix: Index,
      step: Cell -> Cell, done: set<Key>)
    requires RunnerLoop(w0, seen0, w, seen, ix, step, {}, done) && RunnerFunction(step)
    ensures SafeWorld(w0, w) && ViewFresh(seen, w) && seen.Keys == seen0.Keys
    ensures Indexed(w0, ix) ==> Advanced(w0, seen0, w, seen, ix, step)
  {
    if Indexed(w0, ix) {
      forall k | k !in done ensures step(CellAt(w0, seen0, ix, k)) == CellAt(w0, seen0, ix, k) {
        UnvisitedHasNoRunner(w0, seen0, ix, done, k);
      }
      hide CellAt, Indexed, SafeWorld;
      AllDone(w0, seen0, w, seen, ix, step, done);
    }
  }

  lemma RunnerAdvances(
    w0: World, seen0: Table<RunnerData>, w: World, seen: Table<RunnerData>, w': World, seen': Table<RunnerData>,
    id: string, v: Runner, live: Option<Status>, ix: Index, step: Cell -> Cell, done: set<Key>)
    requires SafeWorld(w0, w) && ViewFresh(seen, w) && id in seen && id in w'.runners && id in w0.runners
    requires Advancing(w0, seen0, w, seen, ix, step, done) && KeyOf(w0, id) !in done
    requires SafeRunner(w.runners[id], Get(w.live, id), w'.runners[id], live) && Fresh(v, w'.runners[id])
    requires w' == PutRunner(w, w'.runners[id], live) && seen' == seen[id := v]
    requires RunnerStep(step, CellAt(w, seen, ix, KeyOf(w0, id)), w'.runners[id], live, v)
    ensures Advancing(w0, seen0, w', seen', ix, step, done + {KeyOf(w0, id)})
  {
    assert SafeRunner(w0.runners[id], Get(w0.live, id), w.runners[id], Get(w.live, id));
    assert KeyOf(w, id) == KeyOf(w0, id);
    RunnerChangeConfined(w, seen, id, w'.runners[id], live, v, ix);
    OneMore(w0, seen0, w, seen, w', seen', ix, step, done, KeyOf(w, id));
  }

  lemma TodoShrinks(w: World, seen: Table<RunnerData>, ix: Index, todo: set<string>, done: set<Key>, id: string)
    requires Indexed(w, ix) && seen.Keys <= w.runners.Keys && id in todo && id in seen
    requires forall r | r in seen :: r in todo <==> KeyOf(w, r) !in done
    ensures forall r | r in seen :: r in todo - {id} <==> KeyOf(w, r) !in done + {KeyOf(w, id)}
  {
    KeysOfRunnersDiffer(w, ix, id);
  }

  lemma RunnerIteration(
    w0: World, seen0: Table<RunnerData>, w: World, seen: Table<RunnerData>, w': World, seen': Table<RunnerData>,
    id: string, v: Runner, live: Option<Status>, ix: Index, step: Cell -> Cell, todo: set<string>, done: set<Key>)
    requires RunnerLoop(w0, seen0, w, seen, ix, step, todo, done) && id in todo && id in w'.runners
    requires SafeRunner(w.runners[id], Get(w.live, id), w'.runners[id], live) && Fresh(v, w'.runners[id])
    requires w' == PutRunner(w, w'.runners[id], live) && seen' == seen[id := v]
    requires Indexed(w0, ix) ==> RunnerStep(step, CellAt(w, seen, ix, KeyOf(w0, id)), w'.runners[id], live, v)
    ensures RunnerLoop(w0, seen0, w', seen', ix, step, todo - {id}, done + {KeyOf(w0, id)})
  {
    RunnerChangeSafe(w, seen, id, w'.runners[id], live, v);
    SafeTransitive(w0, w, w');
    if Indexed(w0, ix) {
      RunnerAdvances(w0, seen0, w, seen, w', seen', id, v, live, ix, step, done);
      TodoShrinks(w0, seen0, ix, todo, done, id);
    }
  }

  /** The runner's own part of the cell it belongs to. */
  lemma CellOfRunner(w0: World, seen0: Table<RunnerData>, w: World, seen: Table<RunnerData>, id: string, ix: Index,
      step: Cell -> Cell, todo: set<string>, done: set<Key>)
    requires RunnerLoop(w0, seen0, w, seen, ix, step, todo, done) && id in todo && Indexed(w0, ix)
    ensures var c := CellAt(w, seen, ix, KeyOf(w0, id));
      && c.runner == Some(w.runners[id]) && c.seen == Some(seen[id]) && c.live == Get(w.live, id)
      && c.job == (if seen[id].data.jobID == "" then None else Get(w.jobs, seen[id].data.jobID))
  {
    KeyHoldsItsRunner(w0, ix, id);
    assert SafeRunner(w0.runners[id], Get(w0.live, id), w.runners[id], Get(w.live, id));
    assert Fresh(seen[id], w.runners[id]);
  }

  /** The part of a cell that a loop over runners can see from runner `id`. */
  function Bare(w: World, seen: Table<RunnerData>, id: string): Cell
    requires id in seen && id in w.runners
  {
    Cell(if seen[id].data.jobID == "" then None else Get(w.jobs, seen[id].data.jobID), None,
      Some(w.runners[id]), Some(seen[id]), Get(w.live, id))
  }

  /** A step that changes nothing but a runner, safely, and does not look at the lease. */
  ghost predicate RunnerFunction(step: Cell -> Cell) {
    && (forall c: Cell :: step(c) == step(c.(lease := None)).(lease := c.lease))
    && (forall c: Cell | c.seen.None? :: step(c) == c)
    && (forall c: Cell | c.runner.Some? && c.seen.Some? && Fresh(c.seen.value, c.runner.value) :: SafeCell(c, step(c)))
  }

  lemma SafeCellParts(c: Cell, d: Cell, step: Cell -> Cell)
    requires RunnerFunction(step) && d == step(c)
    requires c.runner.Some? && c.seen.Some? && Fresh(c.seen.value, c.runner.value)
    ensures d.runner.Some? && d.seen.Some? && d.job == c.job && d.lease == c.lease
    ensures d.runner.value.id == c.runner.value.id
    ensures SafeRunner(c.runner.value, c.live, d.runner.value, d.live) && Fresh(d.seen.value, d.runner.value)
  {
    assert SafeCell(c, d);
  }

  lemma StepIgnoresLease(step: Cell -> Cell, c: Cell)
    requires RunnerFunction(step)
    ensures step(c) == step(c.(lease := None)).(lease := c.lease)
  {
  }

  lemma RunnerTurn(
    w0: World, seen0: Table<RunnerData>, w: World, seen: Table<RunnerData>, w': World, seen': Table<RunnerData>,
    id: string, ix: Index, step: Cell -> Cell, todo: set<string>, done: set<Key>)
    requires RunnerLoop(w0, seen0, w, seen, ix, step, todo, done) && id in todo && RunnerFunction(step)
    requires var d := step(Bare(w, seen, id));
      && d.runner.Some? && d.seen.Some? && seen' == seen[id := d.seen.value] &&
          w' == PutRunner(w, d.runner.value, d.live)
    ensures RunnerLoop(w0, seen0, w', seen', ix, step, todo - {id}, done + {KeyOf(w0, id)})
  {
    hide CellAt, Indexed, SafeWorld, Advancing, SafeRunner, PutRunner, RunnerFunction, RunnerLoop, RunnerStep,
      ViewFresh;
    InTheLoop(w0, seen0, w, seen, id, ix, step, todo, done);
    var c := Bare(w, seen, id);
    var d := step(c);
    SafeCellParts(c, d, step);
    PutRunnerElsewhere(w, id, d.runner.value, d.live);
    if Indexed(w0, ix) {
      CellTakesStep(w0, seen0, w, seen, id, ix, step, todo, done);
    }
    RunnerIteration(w0, seen0, w, seen, w', seen', id, d.seen.value, d.live, ix, step, todo, done);
  }

  lemma InTheLoop(
    w0: World, seen0: Table<RunnerData>, w: World, seen: Table<RunnerData>, id: string, ix: Index, step: Cell -> Cell,
    todo: set<string>, done: set<Key>)
    requires RunnerLoop(w0, seen0, w, seen, ix, step, todo, done) && id in todo
    ensures id in seen && id in w.runners && id in w0.runners && w.runners[id].id == id
    ensures Fresh(seen[id], w.runners[id])
  {
  }

  /** The whole cell of a runner takes the step that the runner's own part takes. */
  lemma CellTakesStep(
    w0: World, seen0: Table<RunnerData>, w: World, seen: Table<RunnerData>, id: string, ix: Index, step: Cell -> Cell,
    todo: set<string>, done: set<Key>)
    requires RunnerLoop(w0, seen0, w, seen, ix, step, todo, done) && id in todo && RunnerFunction(step)
    requires Indexed(w0, ix) && id in seen && id in w.runners && id in w0.runners && Fresh(seen[id], w.runners[id])
    ensures var d := step(Bare(w, seen, id));
      && d.runner.Some? && d.seen.Some?
      && RunnerStep(step, CellAt(w, seen, ix, KeyOf(w0, id)), d.runner.value, d.live, d.seen.value)
  {
    hide CellAt, Indexed, RunnerFunction, RunnerLoop, SafeRunner, Fresh, KeyOf;
    var c, full := Bare(w, seen, id), CellAt(w, seen, ix, KeyOf(w0, id));
    SafeCellParts(c, step(c), step);
    CellOfRunner(w0, seen0, w, seen, id, ix, step, todo, done);
    assert full.(lease := None) == c;
    StepIgnoresLease(step, full);
  }

  lemma TruthIsRunnerFunction(faults: Faults, at: Time)
    ensures RunnerFunction(TruthOf(faults, at))
  {
    forall c: Cell ensures TruthOf(faults, at)(c) == TruthOf(faults, at)(c.(lease := None)).(lease := c.lease) {
    }
    hide TruthStep, SafeCell;
    forall c: Cell | c.runner.Some? && c.seen.Some? && Fresh(c.seen.value, c.runner.value)
      ensures SafeCell(c, TruthOf(faults, at)(c))
    {
      TruthIsSafe(c, faults, at);
    }
  }

  lemma OrphanStepIsSafe(c: Cell, faults: Faults, at: Time)
    requires c.runner.Some? && c.seen.Some? && Fresh(c.seen.value, c.runner.value)
    ensures SafeCell(c, OrphanStep(c, faults, at))
  {
    if Orphaned(c) {
      StopIsSafe(c.runner.value, c.live, c.seen.value, Orphan, faults, at);
    }
    hide StopRunner;
  }

  lemma OrphanIsRunnerFunction(faults: Faults, at: Time)
    ensures RunnerFunction(OrphanOf(faults, at))
  {
    hide StopRunner, SafeCell;
    forall c: Cell ensures OrphanOf(faults, at)(c) == OrphanOf(faults, at)(c.(lease := None)).(lease := c.lease) {
    }
    forall c: Cell | c.runner.Some? && c.seen.Some? && Fresh(c.seen.value, c.runner.value)
      ensures SafeCell(c, OrphanOf(faults, at)(c))
    {
      OrphanStepIsSafe(c, faults, at);
    }
  }

  lemma ReapStepIsSafe(c: Cell, faults: Faults, now: Time, at: Time)
    requires c.runner.Some? && c.seen.Some? && Fresh(c.seen.value, c.runner.value)
    ensures SafeCell(c, ReapStep(c, faults, now, at))
  {
    if Reapable(c.seen.value, now) {
      StopIsSafe(c.runner.value, c.live, c.seen.value, Reap, faults, at);
    }
    hide StopRunner;
  }

  lemma ReapIsRunnerFunction(faults: Faults, now: Time, at: Time)
    ensures RunnerFunction(ReapOf(faults, now, at))
  {
    hide StopRunner, SafeCell;
    forall c: Cell ensures ReapOf(faults, now, at)(c) == ReapOf(faults, now, at)(c.(lease := None)).(lease := c.lease) {
    }
    forall c: Cell | c.runner.Some? && c.seen.Some? && Fresh(c.seen.value, c.runner.value)
      ensures SafeCell(c, ReapOf(faults, now, at)(c))
    {
      ReapStepIsSafe(c, faults, now, at);
    }
  }

  // ---------------------------------------------------------------- the loop over leases

  /** leaseByJob: each entry is a stored lease of that job, and no lease's job is missing. */
  ghost predicate HeldOf(held: Table<LeaseData>, w: World) {
    && (forall j | j in held :: held[j].data.jobID == j && held[j].id in w.leases && w.leases[held[j].id] == held[j])
    && (forall l | l in w.leases :: w.leases[l].data.jobID in held)
  }

  function PutLease(w: World, l: Lease): World {
    w.(leases := w.leases[l.id := l])
  }

  lemma HeldIsIndexed(held: Table<LeaseData>, w: World, ix: Index, j: string)
    requires HeldOf(held, w) && Indexed(w, ix)
    ensures Get(held, j) == Find(w.leases, LeaseName(ix, ForJob(j)))
    ensures j in held ==> LeaseName(ix, ForJob(j)) == Some(held[j].id)
  {
  }

  ghost predicate LeaseLoop(
    w0: World, w: World, seen: Table<RunnerData>, held: Table<LeaseData>, ix: Index, step: Cell -> Cell,
    todo: set<string>, done: set<Key>)
  {
    && SafeWorld(w0, w) && ViewFresh(seen, w) && HeldOf(held, w) && todo <= held.Keys
    && w.jobs == w0.jobs && w.runners == w0.runners && w.live == w0.live
    && (Indexed(w0, ix) ==>
      && Advancing(w0, seen, w, seen, ix, step, done)
      && forall j | j in held :: j in todo <==> ForJob(j) !in done)
  }

  /** The lease row after one iteration: repaired, or as it was. */
  function RepairedLease(w: World, seen: Table<RunnerData>, l: Lease, faults: Faults, now: Time, at: Time): Lease {
    var target := LeaseTarget(l, Get(w.jobs, l.data.jobID), Get(seen, l.data.runnerID), now);
    if target == l.data.state then l
    else
      var row := Saving(Get(w.leases, l.id), LeaseIn(l, target), RepairLease(l.id) in faults, at);
      if row.Some? then row.value else l
  }

  lemma LeaseChangeSafe(w: World, seen: Table<RunnerData>, held: Table<LeaseData>, j: string, l: Lease)
    requires ValidWorld(w) && ViewFresh(seen, w) && HeldOf(held, w) && j in held && SafeLease(held[j], l)
    ensures var w' := PutLease(w, l); SafeWorld(w, w') && ViewFresh(seen, w') && HeldOf(held[j := l], w')
  {
    PutLeaseIsSafe(w, held[j], l);
    PutLeaseIsHeld(w, held, j, l);
  }

  lemma PutLeaseIsSafe(w: World, was: Lease, l: Lease)
    requires ValidWorld(w) && was.id in w.leases && w.leases[was.id] == was && SafeLease(was, l)
    ensures SafeWorld(w, PutLease(w, l))
  {
    forall r | r in w.runners ensures SafeRunner(w.runners[r], Get(w.live, r), w.runners[r], Get(w.live, r)) {
    }
    hide SafeRunner;
  }

  lemma PutLeaseIsHeld(w: World, held: Table<LeaseData>, j: string, l: Lease)
    requires HeldOf(held, w) && j in held && SafeLease(held[j], l)
    ensures HeldOf(held[j := l], PutLease(w, l))
  {
    forall k | k in held && k != j ensures PutLease(w, l).leases[held[k].id] == held[k] {
      assert held[k].id != l.id;
    }
  }

  /** Looking the lease's runner up by name finds the runner of its cell, or makes no difference. */
  lemma LeaseSeesItsCell(w: World, seen: Table<RunnerData>, ix: Index, l: Lease, faults: Faults, now: Time, at: Time)
    requires Indexed(w, ix) && ViewFresh(seen, w) && l.id in w.leases && w.leases[l.id] == l
    ensures var c := CellAt(w, seen, ix, ForJob(l.data.jobID));
      LeaseOf(faults, now, at)(c) == c.(lease := Some(RepairedLease(w, seen, l, faults, now, at)))
  {
    hide Indexed, ViewFresh, CellAt, Saving;
    LeaseCellNames(w, seen, ix, l);
  }

  lemma LeaseCellNames(w: World, seen: Table<RunnerData>, ix: Index, l: Lease)
    requires Indexed(w, ix) && ViewFresh(seen, w) && l.id in w.leases && w.leases[l.id] == l
    ensures var c := CellAt(w, seen, ix, ForJob(l.data.jobID));
      && c.lease == Some(l) && c.job == Get(w.jobs, l.data.jobID)
      && (c.job.None? || Leased(l, c.seen) == Get(seen, l.data.runnerID))
  {
    var j := l.data.jobID;
    if j != "" && l.data.runnerID in w.runners {
      assert ix.runnerOf[j] == l.data.runnerID;
    }
  }

  lemma LeaseConfined(w: World, seen: Table<RunnerData>, j: string, l: Lease, ix: Index)
    requires SafeWorld(w, PutLease(w, l)) && LeaseName(ix, ForJob(j)) == Some(l.id)
    ensures var w', k := PutLease(w, l), ForJob(j);
      OnlyAt(w, seen, w', seen, ix, k) && CellAt(w', seen, ix, k) == CellAt(w, seen, ix, k).(lease := Some(l))
  {
  }

  lemma LeaseAdvances(
    w0: World, w: World, seen: Table<RunnerData>, held: Table<LeaseData>, j: string, ix: Index,
    faults: Faults, now: Time, at: Time, done: set<Key>)
    requires SafeWorld(w0, w) && ViewFresh(seen, w) && HeldOf(held, w) && j in held && ForJob(j) !in done
    requires Advancing(w0, seen, w, seen, ix, LeaseOf(faults, now, at), done)
    requires RepairedLease(w, seen, held[j], faults, now, at).id == held[j].id
    requires SafeWorld(w, PutLease(w, RepairedLease(w, seen, held[j], faults, now, at)))
    ensures var w' := PutLease(w, RepairedLease(w, seen, held[j], faults, now, at));
      Advancing(w0, seen, w', seen, ix, LeaseOf(faults, now, at), done + {ForJob(j)})
  {
    hide SafeWorld, Indexed, ViewFresh, RepairedLease, OnlyAt;
    var l := RepairedLease(w, seen, held[j], faults, now, at);
    LeaseSeesItsCell(w, seen, ix, held[j], faults, now, at);
    HeldIsIndexed(held, w, ix, j);
    LeaseConfined(w, seen, j, l, ix);
    OneMore(w0, seen, w, seen, PutLease(w, l), seen, ix, LeaseOf(faults, now, at), done, ForJob(j));
  }

  lemma LeaseStaysSafe(
    w0: World, w: World, seen: Table<RunnerData>, held: Table<LeaseData>, j: string, faults: Faults, now: Time,
      at: Time)
    requires SafeWorld(w0, w) && ViewFresh(seen, w) && HeldOf(held, w) && j in held
    ensures var l := RepairedLease(w, seen, held[j], faults, now, at);
      var w' := PutLease(w, l);
      l.id == held[j].id && SafeWorld(w, w') && SafeWorld(w0, w') && ViewFresh(seen, w') && HeldOf(held[j := l], w')
  {
    var l := RepairedLease(w, seen, held[j], faults, now, at);
    LeaseChangeSafe(w, seen, held, j, l);
    SafeTransitive(w0, w, PutLease(w, l));
  }

  lemma LeaseTurn(
    w0: World, w: World, seen: Table<RunnerData>, held: Table<LeaseData>, w': World, j: string, ix: Index,
    faults: Faults, now: Time, at: Time, todo: set<string>, done: set<Key>)
    requires LeaseLoop(w0, w, seen, held, ix, LeaseOf(faults, now, at), todo, done) && j in todo
    requires w' == PutLease(w, RepairedLease(w, seen, held[j], faults, now, at))
    ensures LeaseLoop(w0, w', seen, held[j := RepairedLease(w, seen, held[j], faults, now, at)], ix,
      LeaseOf(faults, now, at), todo - {j}, done + {ForJob(j)})
  {
    hide SafeWorld, Indexed, HeldOf, ViewFresh, Advancing, RepairedLease;
    LeaseStaysSafe(w0, w, seen, held, j, faults, now, at);
    if Indexed(w0, ix) {
      LeaseAdvances(w0, w, seen, held, j, ix, faults, now, at, done);
    }
  }

  lemma LeaseLoopEnds(w0: World, w: World, seen: Table<RunnerData>, held: Table<LeaseData>, ix: Index,
      faults: Faults, now: Time, at: Time, done: set<Key>)
    requires LeaseLoop(w0, w, seen, held, ix, LeaseOf(faults, now, at), {}, done)
    ensures Indexed(w0, ix) ==> Advanced(w0, seen, w, seen, ix, LeaseOf(faults, now, at))
  {
    var step := LeaseOf(faults, now, at);
    if Indexed(w0, ix) {
      forall k | k !in done ensures step(CellAt(w0, seen, ix, k)) == CellAt(w0, seen, ix, k) {
        if k.ForJob? {
          HeldIsIndexed(held, w, ix, k.job);
          assert CellAt(w, seen, ix, k) == CellAt(w0, seen, ix, k);
        }
      }
      AllDone(w0, seen, w, seen, ix, step, done);
    }
  }

  // ---------------------------------------------------------------- the loop over jobs

  function PutJob(w: World, j: Job): World {
    w.(jobs := w.jobs[j.id := j])
  }

  /** The runner the job's iteration may touch: its lease's, or without a lease one that names the job. */
  ghost predicate Consulted(seen: Table<RunnerData>, held: Table<LeaseData>, j: string, name: Option<string>) {
    if j in held then
      name == (if held[j].data.runnerID in seen then Some(held[j].data.runnerID) else None)
    else
      && (name.Some? ==> name.value in seen && seen[name.value].data.jobID == j)
      && (name.None? ==> forall r | r in seen :: seen[r].data.jobID != j)
  }

  /** What the job's iteration works on. */
  function JobBare(w: World, seen: Table<RunnerData>, held: Table<LeaseData>, j: string, name: Option<string>): Cell {
    Cell(Get(w.jobs, j), Get(held, j), Find(w.runners, name), Find(seen, name), Find(w.live, name))
  }

  function PutCell(w: World, d: Cell, name: Option<string>): World
    requires d.job.Some? && (name.Some? ==> d.runner.Some?)
  {
    var u := PutJob(w, d.job.value);
    if name.Some? then PutRunner(u, d.runner.value, d.live) else u
  }

  function PutSeen(seen: Table<RunnerData>, d: Cell, name: Option<string>): Table<RunnerData>
    requires name.Some? ==> d.seen.Some?
  {
    if name.Some? then seen[name.value := d.seen.value] else seen
  }

  ghost predicate JobLoop(
    w0: World, seen0: Table<RunnerData>, w: World, seen: Table<RunnerData>, held: Table<LeaseData>, ix: Index,
    step: Cell -> Cell, todo: set<string>, done: set<Key>)
  {
    && SafeWorld(w0, w) && ViewFresh(seen, w) && seen.Keys == seen0.Keys
    && HeldOf(held, w) && w.leases == w0.leases && todo <= w0.jobs.Keys
    && (Indexed(w0, ix) ==>
      && Advancing(w0, seen0, w, seen, ix, step, done)
      && forall j | j in w0.jobs :: j in todo <==> ForJob(j) !in done)
  }

  /** A job's iteration changed its job and the consulted runner safely, and nothing else. */
  ghost predicate SafeTurn(w: World, seen: Table<RunnerData>, held: Table<LeaseData>, j: string,
      name: Option<string>, d: Cell) {
    && j in w.jobs && d.job.Some? && d.job.value.id == j && SafeJob(w.jobs[j], d.job.value)
    && (name.Some? ==>
      && name.value in seen && name.value in w.runners && d.runner.Some? && d.seen.Some? &&
          d.runner.value.id == name.value
      && (d.live.None? ==> name.value !in w.live)
      && SafeCell(JobBare(w, seen, held, j, name).(job := d.job), d))
  }

  lemma JobTurnIsSafe(
    w: World, seen: Table<RunnerData>, held: Table<LeaseData>, j: string, name: Option<string>, faults: Faults,
      now: Time, at: Time)
    requires ValidWorld(w) && ViewFresh(seen, w) && j in w.jobs && Consulted(seen, held, j, name)
    ensures SafeTurn(w, seen, held, j, name, JobStep(JobBare(w, seen, held, j, name), faults, now, at))
  {
    hide JobStep;
    JobIsSafe(JobBare(w, seen, held, j, name), faults, now, at);
  }

  lemma JobChangeSafe(w: World, seen: Table<RunnerData>, held: Table<LeaseData>, j: string, name: Option<string>,
      d: Cell)
    requires ValidWorld(w) && ViewFresh(seen, w) && HeldOf(held, w) && SafeTurn(w, seen, held, j, name, d)
    ensures SafeWorld(w, PutCell(w, d, name)) && ViewFresh(PutSeen(seen, d, name), PutCell(w, d, name))
    ensures PutSeen(seen, d, name).Keys == seen.Keys
    ensures HeldOf(held, PutCell(w, d, name)) && PutCell(w, d, name).leases == w.leases
  {
    hide SafeWorld, ViewFresh, SafeCell, HeldOf, ValidWorld, SafeJob, PutJob;
    var u := PutJob(w, d.job.value);
    PutJobIsSafe(w, seen, held, d.job.value);
    SameRunners(w, d.job.value);
    if name.Some? {
      SafeParts(w, seen, held, j, name, d);
      RunnerChangeSafe(u, seen, name.value, d.runner.value, d.live, d.seen.value);
      SafeTransitive(w, u, PutCell(w, d, name));
    }
    HeldStays(held, w, PutCell(w, d, name));
  }

  lemma SameRunners(w: World, job: Job)
    ensures PutJob(w, job).runners == w.runners && PutJob(w, job).live == w.live && PutJob(w, job).leases == w.leases
  {
  }

  lemma SafeParts(w: World, seen: Table<RunnerData>, held: Table<LeaseData>, j: string, name: Option<string>, d: Cell)
    requires SafeTurn(w, seen, held, j, name, d) && name.Some?
    ensures SafeRunner(w.runners[name.value], Get(w.live, name.value), d.runner.value, d.live)
    ensures Fresh(d.seen.value, d.runner.value)
  {
  }

  lemma PutJobIsSafe(w: World, seen: Table<RunnerData>, held: Table<LeaseData>, job: Job)
    requires ValidWorld(w) && ViewFresh(seen, w) && HeldOf(held, w) && job.id in w.jobs && SafeJob(w.jobs[job.id], job)
    ensures SafeWorld(w, PutJob(w, job)) && ValidWorld(PutJob(w, job))
    ensures ViewFresh(seen, PutJob(w, job)) && HeldOf(held, PutJob(w, job))
  {
    hide Fresh;
    forall r | r in w.runners ensures SafeRunner(w.runners[r], Get(w.live, r), w.runners[r], Get(w.live, r)) {
      UnchangedIsSafe(w.runners[r], Get(w.live, r));
    }
    hide SafeRunner;
  }

  lemma ConsultedIsKnown(w: World, seen: Table<RunnerData>, held: Table<LeaseData>, j: string, name: Option<string>)
    requires ValidWorld(w) && ViewFresh(seen, w) && Consulted(seen, held, j, name)
    ensures name.Some? ==>
      && name.value in seen && name.value in w.runners
      && seen[name.value].id == name.value && w.runners[name.value].id == name.value
    ensures j in held && name.Some? ==> name.value == held[j].data.runnerID
    ensures var c := JobBare(w, seen, held, j, name); Cleaned(c) == c.seen
    ensures j in held && name.Some? ==> Leased(held[j], Find(seen, name)) == Find(seen, name)
  {
  }

  lemma ConsultedIsTheCells(w: World, seen: Table<RunnerData>, held: Table<LeaseData>, ix: Index, j: string, r: string)
    requires Indexed(w, ix) && ViewFresh(seen, w) && HeldOf(held, w) && j in w.jobs && Consulted(seen, held, j, Some(r))
    ensures RunnerName(ix, ForJob(j)) == Some(r) && JobBare(w, seen, held, j, Some(r)) == CellAt(w, seen, ix, ForJob(j))
  {
    hide JobStep;
    HeldIsIndexed(held, w, ix, j);
    assert Fresh(seen[r], w.runners[r]);
    assert w.runners[r].data.jobID == j;
  }

  lemma NothingToClean(w: World, seen: Table<RunnerData>, held: Table<LeaseData>, ix: Index, j: string)
    requires Indexed(w, ix) && ViewFresh(seen, w) && HeldOf(held, w) && j in w.jobs && Consulted(seen, held, j, None)
    ensures var c := CellAt(w, seen, ix, ForJob(j));
      && c.job.Some? && Cleaned(c).None?
      && JobBare(w, seen, held, j, None) == c.(runner := None, seen := None, live := None)
  {
    hide Indexed, ViewFresh, HeldOf;
    HeldIsIndexed(held, w, ix, j);
    var r := RunnerName(ix, ForJob(j));
    if r.Some? && r.value in seen {
      RunnerNamesJob(w, seen, ix, j, r.value);
    }
  }

  lemma RunnerNamesJob(w: World, seen: Table<RunnerData>, ix: Index, j: string, r: string)
    requires Indexed(w, ix) && ViewFresh(seen, w) && RunnerName(ix, ForJob(j)) == Some(r) && r in seen
    ensures seen[r].data.jobID == j && seen[r].id == r
  {
    assert Fresh(seen[r], w.runners[r]);
  }

  lemma JobStepKeepsLease(c: Cell, faults: Faults, now: Time, at: Time)
    ensures JobStep(c, faults, now, at).lease == c.lease
  {
    hide StopRunner, JobTarget;
  }

  /** In an indexed world the consulted runner is the cell's own, or there is none to clean. */
  lemma JobSeesItsCell(
    w: World, seen: Table<RunnerData>, held: Table<LeaseData>, ix: Index, j: string, name: Option<string>,
    faults: Faults, now: Time, at: Time)
    requires Indexed(w, ix) && ViewFresh(seen, w) && HeldOf(held, w) && j in w.jobs && Consulted(seen, held, j, name)
    ensures var c, b := CellAt(w, seen, ix, ForJob(j)), JobBare(w, seen, held, j, name);
      var d := JobStep(b, faults, now, at);
      JobOf(faults, now, at)(c)
        == if name.Some? then c.(job := d.job, runner := d.runner, seen := d.seen, live := d.live) else c.(job := d.job)
    ensures name.Some? ==> RunnerName(ix, ForJob(j)) == name
  {
    hide Indexed, ViewFresh, HeldOf, Consulted, JobStep, CellAt, JobBare;
    var c := CellAt(w, seen, ix, ForJob(j));
    JobStepKeepsLease(c, faults, now, at);
    if name.Some? {
      ConsultedIsTheCells(w, seen, held, ix, j, name.value);
    } else {
      NothingToClean(w, seen, held, ix, j);
      JobStepIsLocal(c, faults, now, at);
    }
  }

  lemma JobConfined(w: World, seen: Table<RunnerData>, held: Table<LeaseData>, j: string, name: Option<string>,
      d: Cell, ix: Index)
    requires SafeTurn(w, seen, held, j, name, d)
    requires SafeWorld(w, PutCell(w, d, name)) && (name.Some? ==> RunnerName(ix, ForJob(j)) == name)
    ensures OnlyAt(w, seen, PutCell(w, d, name), PutSeen(seen, d, name), ix, ForJob(j))
    ensures var c := CellAt(w, seen, ix, ForJob(j));
      CellAt(PutCell(w, d, name), PutSeen(seen, d, name), ix, ForJob(j))
        == if name.Some? then c.(job := d.job, runner := d.runner, seen := d.seen, live := d.live) else c.(job := d.job)
  {
    hide SafeWorld;
  }

  lemma JobAdvances(
    w0: World, seen0: Table<RunnerData>, w: World, seen: Table<RunnerData>, held: Table<LeaseData>,
    j: string, name: Option<string>, ix: Index, faults: Faults, now: Time, at: Time, done: set<Key>)
    requires Indexed(w, ix) && ViewFresh(seen, w) && HeldOf(held, w) && j in w.jobs && Consulted(seen, held, j, name)
    requires Advancing(w0, seen0, w, seen, ix, JobOf(faults, now, at), done) && ForJob(j) !in done
    requires SafeTurn(w, seen, held, j, name, JobStep(JobBare(w, seen, held, j, name), faults, now, at))
    requires SafeWorld(w, PutCell(w, JobStep(JobBare(w, seen, held, j, name), faults, now, at), name))
    ensures var d := JobStep(JobBare(w, seen, held, j, name), faults, now, at);
      Advancing(w0, seen0, PutCell(w, d, name), PutSeen(seen, d, name), ix, JobOf(faults, now, at), done + {ForJob(j)})
  {
    hide SafeWorld, Indexed, HeldOf, ViewFresh, Consulted, OnlyAt, JobStep, SafeJob, SafeCell;
    var d := JobStep(JobBare(w, seen, held, j, name), faults, now, at);
    JobSeesItsCell(w, seen, held, ix, j, name, faults, now, at);
    JobConfined(w, seen, held, j, name, d, ix);
    OneMore(w0, seen0, w, seen, PutCell(w, d, name), PutSeen(seen, d, name), ix, JobOf(faults, now, at), done,
      ForJob(j));
  }

  lemma JobTurn(
    w0: World, seen0: Table<RunnerData>, w: World, seen: Table<RunnerData>, held: Table<LeaseData>,
    w': World, seen': Table<RunnerData>, j: string, name: Option<string>, ix: Index,
    faults: Faults, now: Time, at: Time, todo: set<string>, done: set<Key>)
    requires JobLoop(w0, seen0, w, seen, held, ix, JobOf(faults, now, at), todo, done) && j in todo && j in w.jobs
    requires ValidWorld(w) && Consulted(seen, held, j, name)
    requires var d := JobStep(JobBare(w, seen, held, j, name), faults, now, at);
      && d.job.Some? && (name.Some? ==> d.runner.Some? && d.seen.Some?)
      && w' == PutCell(w, d, name) && seen' == PutSeen(seen, d, name)
    ensures JobLoop(w0, seen0, w', seen', held, ix, JobOf(faults, now, at), todo - {j}, done + {ForJob(j)})
  {
    hide SafeWorld, Indexed, HeldOf, ViewFresh, Consulted, JobStep, SafeTurn, PutCell, PutSeen;
    var d := JobStep(JobBare(w, seen, held, j, name), faults, now, at);
    JobTurnIsSafe(w, seen, held, j, name, faults, now, at);
    JobChangeSafe(w, seen, held, j, name, d);
    SafeTransitive(w0, w, w');
    if Indexed(w0, ix) {
      JobAdvances(w0, seen0, w, seen, held, j, name, ix, faults, now, at, done);
    }
  }

  lemma JobLoopEnds(
    w0: World, seen0: Table<RunnerData>, w: World, seen: Table<RunnerData>, held: Table<LeaseData>, ix: Index,
    faults: Faults, now: Time, at: Time, done: set<Key>)
    requires JobLoop(w0, seen0, w, seen, held, ix, JobOf(faults, now, at), {}, done)
    ensures Indexed(w0, ix) ==> Advanced(w0, seen0, w, seen, ix, JobOf(faults, now, at))
  {
    if Indexed(w0, ix) {
      AllDone(w0, seen0, w, seen, ix, JobOf(faults, now, at), done);
    }
  }

  lemma LeaseLoopStarts(w: World, seen: Table<RunnerData>, held: Table<LeaseData>, ix: Index, step: Cell -> Cell)
    requires ValidWorld(w) && ViewFresh(seen, w) && HeldOf(held, w)
    ensures LeaseLoop(w, w, seen, held, ix, step, held.Keys, {})
  {
  }

  lemma JobLoopStarts(w: World, seen: Table<RunnerData>, held: Table<LeaseData>, ix: Index, step: Cell -> Cell)
    requires ValidWorld(w) && ViewFresh(seen, w) && HeldOf(held, w)
    ensures JobLoop(w, seen, w, seen, held, ix, step, w.jobs.Keys, {})
  {
  }

  lemma NoJobPut(w: World, seen: Table<RunnerData>, j: string, name: Option<string>)
    requires ValidWorld(w) && j in w.jobs && (name.Some? ==> name.value in seen && name.value in w.runners)
    ensures w == PutJob(w, w.jobs[j])
    ensures name.Some? ==>
      w == PutRunner(w, w.runners[name.value], Get(w.live, name.value)) && seen == seen[name.value := seen[name.value]]
  {
  }

  // ---------------------------------------------------------------- a whole pass

  /** Every cell of `w'` is what one pass makes of the same cell of `w`. */
  ghost predicate Passed(w: World, w': World, ix: Index, faults: Faults, now: Time, at: Time) {
    && Indexed(w, ix) && Indexed(w', ix) && SafeWorld(w, w')
    && forall k :: CellAt(w', w'.runners, ix, k) == NextCell(CellAt(w, w.runners, ix, k), faults, now, at)
  }

  /** Of two writes of the same job only the second remains. */
  lemma LastJobCounts(w: World, j: Job, d: Cell, name: Option<string>)
    requires d.job.Some? && d.job.value.id == j.id && (name.Some? ==> d.runner.Some?)
    ensures PutCell(PutJob(w, j), d, name) == PutCell(w, d, name)
  {
    assert w.jobs[j.id := j][j.id := d.job.value] == w.jobs[j.id := d.job.value];
  }

  lemma PutJobKeeps(w: World, j: Job, seen: Table<RunnerData>)
    requires ValidWorld(w) && ViewFresh(seen, w) && j.id in w.jobs && j.revision >= 1
    ensures ValidWorld(PutJob(w, j)) && ViewFresh(seen, PutJob(w, j))
  {
  }

  lemma ViewOfAll(w: World)
    requires ValidWorld(w)
    ensures ViewFresh(w.runners, w)
  {
  }

  lemma HeldStays(held: Table<LeaseData>, w: World, w': World)
    requires HeldOf(held, w) && w'.leases == w.leases
    ensures HeldOf(held, w')
  {
  }

  lemma SafeCarries(w: World, w': World, ix: Index)
    requires SafeWorld(w, w')
    ensures ValidWorld(w') && (Indexed(w, ix) ==> Indexed(w', ix))
  {
    if Indexed(w, ix) {
      SafeKeepsIndex(w, w', ix);
    }
  }

  lemma SafeThroughout(w0: World, w1: World, w2: World, w3: World, w4: World, w5: World)
    requires SafeWorld(w0, w1) && SafeWorld(w1, w2) && SafeWorld(w2, w3) && SafeWorld(w3, w4) && SafeWorld(w4, w5)
    ensures SafeWorld(w0, w5)
  {
    hide SafeWorld;
    SafeTransitive(w0, w1, w2);
    SafeTransitive(w0, w2, w3);
    SafeTransitive(w0, w3, w4);
    SafeTransitive(w0, w4, w5);
  }

  lemma StepsMakeAPass(
    w0: World, w1: World, s1: Table<RunnerData>, w2: World, w3: World, s3: Table<RunnerData>,
    w4: World, s4: Table<RunnerData>, w5: World, s5: Table<RunnerData>, ix: Index, faults: Faults, now: Time, at: Time)
    requires Indexed(w0, ix) && SafeWorld(w0, w5)
    requires Advanced(w0, w0.runners, w1, s1, ix, TruthOf(faults, at))
    requires Advanced(w1, s1, w2, s1, ix, LeaseOf(faults, now, at))
    requires Advanced(w2, s1, w3, s3, ix, JobOf(faults, now, at))
    requires Advanced(w3, s3, w4, s4, ix, OrphanOf(faults, at))
    requires Advanced(w4, s4, w5, s5, ix, ReapOf(faults, now, at))
    ensures Passed(w0, w5, ix, faults, now, at)
  {
    hide SafeWorld, Indexed, TruthStep, LeaseStep, JobStep, OrphanStep, ReapStep;
    forall k: Key
      ensures CellAt(w5, w5.runners, ix, k) == NextCell(CellAt(w0, w0.runners, ix, k), faults, now, at)
    {
      assert CellAt(w1, s1, ix, k) == TruthStep(CellAt(w0, w0.runners, ix, k), faults, at);
      assert CellAt(w2, s1, ix, k) == LeaseStep(CellAt(w1, s1, ix, k), faults, now, at);
      assert CellAt(w3, s3, ix, k) == JobStep(CellAt(w2, s1, ix, k), faults, now, at);
      assert CellAt(w4, s4, ix, k) == OrphanStep(CellAt(w3, s3, ix, k), faults, at);
      assert CellAt(w5, s5, ix, k) == ReapStep(CellAt(w4, s4, ix, k), faults, now, at);
    }
  }

  /** Every cell of `w'` is what the reaper alone makes of the same cell of `w`. */
  ghost predicate Reaped(w: World, w': World, ix: Index, faults: Faults, now: Time, at: Time) {
    && Indexed(w, ix) && Indexed(w', ix) && SafeWorld(w, w')
    && forall k :: CellAt(w', w'.runners, ix, k) == Reread(ReapStep(CellAt(w, w.runners, ix, k), faults, now, at))
  }

  /** Listing only the expired runners loses nothing: the reaper skips all others anyway. */
  lemma ExpiredSuffice(
    w: World, expired: Table<RunnerData>, w': World, seen: Table<RunnerData>, ix: Index, faults: Faults, now: Time,
      at: Time)
    requires Indexed(w, ix) && SafeWorld(w, w')
    requires expired == map r | r in w.runners && Reapable(w.runners[r], now) :: w.runners[r]
    requires Advanced(w, expired, w', seen, ix, ReapOf(faults, now, at))
    ensures Reaped(w, w', ix, faults, now, at)
  {
    hide SafeWorld, Indexed, StopRunner;
    forall k: Key
      ensures CellAt(w', w'.runners, ix, k) == Reread(ReapStep(CellAt(w, w.runners, ix, k), faults, now, at))
    {
      assert CellAt(w', seen, ix, k) == ReapStep(CellAt(w, expired, ix, k), faults, now, at);
    }
  }

  lemma ListedAreStored(t: Table<LeaseData>, listing: seq<Lease>)
    requires ValidTable(t) && IsListing(t, _ => true, listing)
    ensures forall l | l in listing :: l.id in t && t[l.id] == l
    ensures forall id | id in t :: t[id] in listing
  {
    var kept := Ordering.Kept(t, _ => true, t.Keys);
    assert multiset(listing) == multiset(kept);
    forall l | l in listing ensures l.id in t && t[l.id] == l {
      assert l in multiset(listing);
      assert l in kept;
    }
    forall id | id in t ensures t[id] in listing {
      assert t[id] in kept;
      assert t[id] in multiset(listing);
    }
  }

  class Reconciler {
    const state: MemoryRepository
    const provider: FakeProvider

    constructor (state: MemoryRepository, provider: FakeProvider)
      ensures this.state == state && this.provider == provider
    {
      this.state := state;
      this.provider := provider;
    }

    ghost function Current(): World
      reads state, provider
    {
      World(state.jobs, state.runners, state.leases, provider.instances)
    }

    /** A conditional save at the runner's own revision, which may fail before it reaches the store. */
    method SaveRunner(v: Runner, fail: bool, at: Time) returns (row: Option<Runner>)
      modifies state`runners
      ensures row == Saving(Get(old(state.runners), v.id), v, fail, at)
      ensures state.runners == if row.Some? then old(state.runners)[v.id := row.value] else old(state.runners)
    {
      if fail {
        return None;
      }
      var r := state.SaveRunner(v, v.revision, at);
      row := match r case Ok(x) => Some(x) case Err(_) => None;
    }

    method Stop(r: Runner, phase: Phase, faults: Faults, at: Time) returns (last: Runner, ok: bool)
      requires r.id in state.runners
      modifies state`runners, provider
      ensures var s := StopRunner(Some(old(state.runners[r.id])), Get(old(provider.instances), r.id), r, phase,
        faults, at);
        && s.runner.Some? && last == s.last && ok == s.ok
        && state.runners == old(state.runners)[r.id := s.runner.value]
        && provider.instances ==
          if s.live.Some? then old(provider.instances)[r.id := s.live.value] else old(provider.instances)
    {
      last := r;
      if r.data.state != RunnerTerminating {
        var marked := SaveRunner(RunnerIn(r, RunnerTerminating), MarkTerminating(phase, r.id) in faults, at);
        if marked.None? {
          return last, false;
        }
        last := marked.value;
      }
      ok := provider.Terminate(r.id, false, StopInstance(phase, r.id) in faults);
      if !ok {
        return;
      }
      var row := SaveRunner(RunnerIn(last, RunnerTerminated), MarkTerminated(phase, r.id) in faults, at);
      if row.None? {
        return last, false;
      }
      last := row.value;
    }

    /** Provider truth is authoritative for a runner that is not terminated. */
    method RepairRunner(id: string, seen0: Table<RunnerData>, faults: Faults, at: Time)
      returns (seen: Table<RunnerData>)
      requires id in seen0 && id in state.runners && seen0[id].id == id && state.runners[id].id == id
      modifies state`runners
      ensures var d := TruthStep(Bare(old(Current()), seen0, id), faults, at);
        && d.runner.Some? && d.seen.Some? && seen == seen0[id := d.seen.value]
        && Current() == PutRunner(old(Current()), d.runner.value, d.live)
    {
      seen := seen0;
      NothingPut(Current(), seen0, id);
      var runner := seen[id];
      if runner.data.state == RunnerTerminated {
        return;
      }
      var status := provider.Status(id, ReadStatus(id) in faults);
      if status == Err(Injected) {
        return;
      }
      var target := if status.Ok? then RunnerStateOf(status.value) else RunnerTerminated;
      if target == runner.data.state {
        return;
      }
      var updated := SaveRunner(RunnerIn(runner, target), SaveTruth(id) in faults, at);
      if updated.Some? {
        seen := seen[id := updated.value];
      }
    }

    method RepairRunners(seen0: Table<RunnerData>, faults: Faults, at: Time, ghost ix: Index)
      returns (seen: Table<RunnerData>)
      requires ValidWorld(Current()) && ViewFresh(seen0, Current())
      modifies state`runners
      ensures SafeWorld(old(Current()), Current()) && ViewFresh(seen, Current()) && seen.Keys == seen0.Keys
      ensures Indexed(old(Current()), ix) ==>
        Advanced(old(Current()), seen0, Current(), seen, ix, TruthOf(faults, at))
    {
      hide SafeWorld, Indexed, Advancing, Advanced, RunnerLoop, RunnerFunction, ViewFresh, Bare, TruthStep,
        OrphanStep, ReapStep;
      seen := seen0;
      var todo := seen0.Keys;
      ghost var w0 := Current();
      ghost var step := TruthOf(faults, at);
      ghost var done: set<Key> := {};
      TruthIsRunnerFunction(faults, at);
      RunnerLoopStarts(w0, seen0, ix, step);
      while todo != {}
        invariant RunnerLoop(w0, seen0, Current(), seen, ix, step, todo, done)
        decreases todo
      {
        var id :| id in todo;
        ghost var w, before := Current(), seen;
        InTheLoop(w0, seen0, w, seen, id, ix, step, todo, done);
        seen := RepairRunner(id, seen, faults, at);
        RunnerTurn(w0, seen0, w, before, Current(), seen, id, ix, step, todo, done);
        todo := todo - {id};
        done := done + {KeyOf(w0, id)};
      }
      RunnerLoopEnds(w0, seen0, Current(), seen, ix, step, done);
    }

    /** A crash can leave a runner whose job record is gone; its JobID identifies it as an orphan. */
    method CleanOrphan(id: string, seen0: Table<RunnerData>, faults: Faults, at: Time) returns (seen: Table<RunnerData>)
      requires id in seen0 && id in state.runners && seen0[id].id == id && state.runners[id].id == id
      modifies state`runners, provider
      ensures var d := OrphanStep(Bare(old(Current()), seen0, id), faults, at);
        && d.runner.Some? && d.seen.Some? && seen == seen0[id := d.seen.value]
        && Current() == PutRunner(old(Current()), d.runner.value, d.live)
    {
      seen := seen0;
      NothingPut(Current(), seen0, id);
      var runner := seen[id];
      if runner.data.jobID == "" || runner.data.state == RunnerTerminated {
        return;
      }
      if runner.data.jobID in state.jobs {
        return;
      }
      var cleaned, ok := Stop(runner, Orphan, faults, at);
      if ok {
        seen := seen[id := cleaned];
      }
    }

    method CleanOrphans(seen0: Table<RunnerData>, faults: Faults, at: Time, ghost ix: Index)
      returns (seen: Table<RunnerData>)
      requires ValidWorld(Current()) && ViewFresh(seen0, Current())
      modifies state`runners, provider
      ensures SafeWorld(old(Current()), Current()) && ViewFresh(seen, Current()) && seen.Keys == seen0.Keys
      ensures Indexed(old(Current()), ix) ==>
        Advanced(old(Current()), seen0, Current(), seen, ix, OrphanOf(faults, at))
    {
      hide SafeWorld, Indexed, Advancing, Advanced, RunnerLoop, RunnerFunction, ViewFresh, Bare, TruthStep,
        OrphanStep, ReapStep;
      seen := seen0;
      var todo := seen0.Keys;
      ghost var w0 := Current();
      ghost var step := OrphanOf(faults, at);
      ghost var done: set<Key> := {};
      OrphanIsRunnerFunction(faults, at);
      RunnerLoopStarts(w0, seen0, ix, step);
      while todo != {}
        invariant RunnerLoop(w0, seen0, Current(), seen, ix, step, todo, done)
        decreases todo
      {
        var id :| id in todo;
        ghost var w, before := Current(), seen;
        InTheLoop(w0, seen0, w, seen, id, ix, step, todo, done);
        seen := CleanOrphan(id, seen, faults, at);
        RunnerTurn(w0, seen0, w, before, Current(), seen, id, ix, step, todo, done);
        todo := todo - {id};
        done := done + {KeyOf(w0, id)};
      }
      RunnerLoopEnds(w0, seen0, Current(), seen, ix, step, done);
    }

    /** Mark terminating, terminate, mark terminated, remembering each save that worked. */
    method ReapRunner(id: string, seen0: Table<RunnerData>, faults: Faults, now: Time, at: Time)
      returns (seen: Table<RunnerData>)
      requires id in seen0 && id in state.runners && seen0[id].id == id && state.runners[id].id == id
      modifies state`runners, provider
      ensures var d := ReapStep(Bare(old(Current()), seen0, id), faults, now, at);
        && d.runner.Some? && d.seen.Some? && seen == seen0[id := d.seen.value]
        && Current() == PutRunner(old(Current()), d.runner.value, d.live)
    {
      seen := seen0;
      NothingPut(Current(), seen0, id);
      var runner := seen[id];
      if runner.data.expiresAt == NO_TIME || runner.data.expiresAt > now || runner.data.state == RunnerTerminated {
        return;
      }
      var last, _ := Stop(runner, Reap, faults, at);
      seen := seen[id := last];
    }

    method ReapRunners(seen0: Table<RunnerData>, faults: Faults, now: Time, at: Time, ghost ix: Index)
      returns (seen: Table<RunnerData>)
      requires ValidWorld(Current()) && ViewFresh(seen0, Current())
      modifies state`runners, provider
      ensures SafeWorld(old(Current()), Current()) && ViewFresh(seen, Current()) && seen.Keys == seen0.Keys
      ensures Indexed(old(Current()), ix) ==>
        Advanced(old(Current()), seen0, Current(), seen, ix, ReapOf(faults, now, at))
    {
      hide SafeWorld, Indexed, Advancing, Advanced, RunnerLoop, RunnerFunction, ViewFresh, Bare, TruthStep,
        OrphanStep, ReapStep;
      seen := seen0;
      var todo := seen0.Keys;
      ghost var w0 := Current();
      ghost var step := ReapOf(faults, now, at);
      ghost var done: set<Key> := {};
      ReapIsRunnerFunction(faults, now, at);
      RunnerLoopStarts(w0, seen0, ix, step);
      while todo != {}
        invariant RunnerLoop(w0, seen0, Current(), seen, ix, step, todo, done)
        decreases todo
      {
        var id :| id in todo;
        ghost var w, before := Current(), seen;
        InTheLoop(w0, seen0, w, seen, id, ix, step, todo, done);
        seen := ReapRunner(id, seen, faults, now, at);
        RunnerTurn(w0, seen0, w, before, Current(), seen, id, ix, step, todo, done);
        todo := todo - {id};
        done := done + {KeyOf(w0, id)};
      }
      RunnerLoopEnds(w0, seen0, Current(), seen, ix, step, done);
    }

    /** leaseByJob, filled in the order of the listing: a later lease of the same job wins. */
    method IndexLeases() returns (held: Table<LeaseData>)
      requires ValidWorld(Current())
      ensures HeldOf(held, Current())
    {
      var leases := ListRecords(state.leases, _ => true);
      held := map[];
      ListedAreStored(state.leases, leases);
      for i := 0 to |leases|
        invariant forall j | j in held :: held[j].data.jobID == j && held[j] in leases
        invariant forall n | 0 <= n < i :: leases[n].data.jobID in held
      {
        held := held[leases[i].data.jobID := leases[i]];
      }
    }

    /** Repair lease ownership from the now-current view of jobs and runners. */
    method RepairOneLease(j: string, seen: Table<RunnerData>, held0: Table<LeaseData>, faults: Faults, now: Time,
        at: Time)
      returns (held: Table<LeaseData>)
      requires j in held0 && held0[j].data.jobID == j && held0[j].id in state.leases
      requires state.leases[held0[j].id] == held0[j]
      modifies state`leases
      ensures var l := RepairedLease(old(Current()), seen, held0[j], faults, now, at);
        held == held0[j := l] && Current() == PutLease(old(Current()), l)
    {
      hide LeaseTarget;
      held := held0;
      assert held0 == held0[j := held0[j]] && state.leases == state.leases[held0[j].id := held0[j]];
      var lease := held[j];
      var target := LeaseStateFor(lease, seen, now);
      if target == lease.data.state || RepairLease(lease.id) in faults {
        return;
      }
      var updated := state.SaveLease(LeaseIn(lease, target), lease.revision, at);
      if updated.Ok? {
        held := held[j := updated.value];
      }
    }

    /** The switch over what is known of the lease's job and runner. */
    method LeaseStateFor(lease: Lease, seen: Table<RunnerData>, now: Time) returns (target: LeaseState)
      ensures target == LeaseTarget(lease, Get(state.jobs, lease.data.jobID), Get(seen, lease.data.runnerID), now)
    {
      target := lease.data.state;
      if lease.data.jobID !in state.jobs || lease.data.runnerID !in seen {
        if target != LeaseTerminated && target != LeaseFailed {
          target := LeaseFailed;
        }
      } else if lease.data.expiresAt != NO_TIME && !(lease.data.expiresAt > now) {
        target := LeaseTerminated;
      } else if TerminalJob(state.jobs[lease.data.jobID].data.state) {
        target := LeaseTerminated;
      } else if seen[lease.data.runnerID].data.state == RunnerTerminated {
        target := LeaseTerminated;
      } else if seen[lease.data.runnerID].data.state in {RunnerFailed, RunnerUnknown} {
        target := LeaseFailed;
      } else if target == LeasePending {
        target := LeaseActive;
      }
    }

    method RepairLeases(seen: Table<RunnerData>, held0: Table<LeaseData>, faults: Faults, now: Time, at: Time,
        ghost ix: Index)
      returns (held: Table<LeaseData>)
      requires ValidWorld(Current()) && ViewFresh(seen, Current()) && HeldOf(held0, Current())
      modifies state`leases
      ensures SafeWorld(old(Current()), Current()) && ViewFresh(seen, Current()) && HeldOf(held, Current())
      ensures Indexed(old(Current()), ix) ==>
        Advanced(old(Current()), seen, Current(), seen, ix, LeaseOf(faults, now, at))
    {
      hide SafeWorld, Indexed, Advancing, Advanced, RepairedLease, ViewFresh;
      held := held0;
      var todo := held0.Keys;
      ghost var w0 := Current();
      ghost var step := LeaseOf(faults, now, at);
      ghost var done: set<Key> := {};
      LeaseLoopStarts(w0, seen, held0, ix, step);
      while todo != {}
        invariant LeaseLoop(w0, Current(), seen, held, ix, step, todo, done)
        decreases todo
      {
        var j :| j in todo;
        ghost var w, before := Current(), held;
        held := RepairOneLease(j, seen, held, faults, now, at);
        LeaseTurn(w0, w, seen, before, Current(), j, ix, faults, now, at, todo, done);
        todo := todo - {j};
        done := done + {ForJob(j)};
      }
      LeaseLoopEnds(w0, Current(), seen, held, ix, faults, now, at, done);
    }

    /** The first runner, in map order, that names the job. */
    method FindRunner(seen: Table<RunnerData>, j: string) returns (name: Option<string>)
      ensures name.Some? ==> name.value in seen && seen[name.value].data.jobID == j
      ensures name.None? ==> forall r | r in seen :: seen[r].data.jobID != j
    {
      var todo := seen.Keys;
      while todo != {}
        invariant todo <= seen.Keys
        invariant forall r | r in seen && r !in todo :: seen[r].data.jobID != j
        decreases todo
      {
        var r :| r in todo;
        if seen[r].data.jobID == j {
          return Some(r);
        }
        todo := todo - {r};
      }
      name := None;
    }

    /** Terminal jobs must not retain live provider resources; a failed cleanup is retried by the next pass. */
    method CleanUp(name: string, seen0: Table<RunnerData>, faults: Faults, at: Time) returns (seen: Table<RunnerData>)
      requires name in seen0 && name in state.runners && seen0[name].id == name && state.runners[name].id == name
      modifies state`runners, provider
      ensures var s := StopRunner(Some(old(state.runners[name])), Get(old(provider.instances), name), seen0[name],
        Cleanup, faults, at);
        && s.runner.Some? && Current() == PutRunner(old(Current()), s.runner.value, s.live)
        && seen == seen0[name := if s.ok then s.last else seen0[name]]
    {
      seen := seen0;
      assert seen == seen0[name := seen0[name]];
      var cleaned, ok := Stop(seen[name], Cleanup, faults, at);
      if ok {
        seen := seen[name := cleaned];
      }
    }

    /** Clean up after a terminal job, or let lease and runner decide about a live one. */
    method SettleNow(j: string, seen0: Table<RunnerData>, held: Table<LeaseData>, found: Option<string>,
        faults: Faults, at: Time)
      returns (seen: Table<RunnerData>)
      requires ValidWorld(Current()) && ViewFresh(seen0, Current()) && j in state.jobs
      requires Consulted(seen0, held, j, found)
      modifies state`jobs, state`runners, provider
      ensures var d := SettleJob(JobBare(old(Current()), seen0, held, j, found), faults, at);
        && d.job.Some? && d.job.value.id == j && (found.Some? ==> d.runner.Some? && d.seen.Some?)
        && Current() == PutCell(old(Current()), d, found) && seen == PutSeen(seen0, d, found)
    {
      hide ViewFresh, Consulted, StopRunner, JobTarget;
      seen := seen0;
      ghost var w := Current();
      ConsultedIsKnown(w, seen, held, j, found);
      NoJobPut(w, seen, j, found);
      var job := state.jobs[j];
      if TerminalJob(job.data.state) {
        if found.Some? && seen[found.value].data.state != RunnerTerminated {
          seen := CleanUp(found.value, seen, faults, at);
        }
        return;
      }
      RepairState(job, held, if found.Some? then Some(seen[found.value]) else None, faults, at);
    }

    /** An unfinished job follows its lease and its runner. */
    method RepairState(job: Job, held: Table<LeaseData>, runner: Option<Runner>, faults: Faults, at: Time)
      requires job.id in state.jobs && state.jobs[job.id] == job
      requires job.id in held && runner.Some? ==> runner.value.id == held[job.id].data.runnerID
      modifies state`jobs
      ensures var target := JobTarget(job, Get(held, job.id), runner);
        var row := Saving(Some(job), JobIn(job, target), RepairJob(job.id) in faults, at);
        state.jobs == old(state.jobs)[job.id := if target == job.data.state || row.None? then job else row.value]
    {
      hide JobTarget;
      assert state.jobs == state.jobs[job.id := job];
      var target := DecideJob(job, Get(held, job.id), runner);
      if target == job.data.state || RepairJob(job.id) in faults {
        return;
      }
      var _ := state.SaveJob(JobIn(job, target), job.revision, at);
    }

    method DecideJob(job: Job, lease: Option<Lease>, runner: Option<Runner>) returns (target: JobState)
      requires lease.Some? && runner.Some? ==> runner.value.id == lease.value.data.runnerID
      ensures target == JobTarget(job, lease, runner)
    {
      target := job.data.state;
      if lease.None? {
        if target == JobAssigned || target == JobRunning {
          target := JobFailed;
        }
      } else if lease.value.data.state in {LeaseTerminated, LeaseFailed, LeaseCancelled, LeaseCompleted} {
        target := JobFailed;
      } else if runner.None? || runner.value.data.state in {RunnerTerminated, RunnerFailed, RunnerUnknown} {
        target := JobFailed;
      } else if runner.value.data.state == RunnerBusy && target in {JobQueued, JobProvisioning, JobAssigned} {
        target := JobRunning;
      } else if runner.value.data.state == RunnerReady && target in {JobQueued, JobProvisioning} {
        target := JobAssigned;
      }
    }

    /** Fail a live job whose deadline has passed; None if that could not be saved. */
    method FailIfExpired(j: string, faults: Faults, now: Time, at: Time) returns (job: Option<Job>)
      requires j in state.jobs && state.jobs[j].id == j && j != ""
      modifies state`jobs
      ensures var was := old(state.jobs[j]);
        job == if !TerminalJob(was.data.state) && Due(was.data.expiresAt, now)
          then Saving(Some(was), JobIn(was, JobFailed), ExpireJob(j) in faults, at) else Some(was)
      ensures Current() == if job.Some? then PutJob(old(Current()), job.value) else old(Current())
      ensures job.Some? ==> job.value.id == j && job.value.revision >= old(state.jobs[j]).revision
    {
      assert state.jobs == state.jobs[j := state.jobs[j]];
      job := Some(state.jobs[j]);
      if !TerminalJob(job.value.data.state) && job.value.data.expiresAt != NO_TIME &&
        !(job.value.data.expiresAt > now) {
        if ExpireJob(j) in faults {
          return None;
        }
        var updated := state.SaveJob(JobIn(job.value, JobFailed), job.value.revision, at);
        job := match updated case Ok(x) => Some(x) case Err(_) => None;
      }
    }

    method Consult(j: string, seen: Table<RunnerData>, held: Table<LeaseData>) returns (found: Option<string>)
      ensures Consulted(seen, held, j, found)
    {
      if j in held {
        found := if held[j].data.runnerID in seen then Some(held[j].data.runnerID) else None;
      } else {
        found := FindRunner(seen, j);
      }
    }

    /** Fail the job if it has expired, then settle it; a failed save leaves the rest to the next pass. */
    method SettleOneJob(j: string, seen0: Table<RunnerData>, held: Table<LeaseData>, faults: Faults, now: Time,
        at: Time)
      returns (seen: Table<RunnerData>, ghost name: Option<string>)
      requires ValidWorld(Current()) && ViewFresh(seen0, Current()) && j in state.jobs
      modifies state`jobs, state`runners, provider
      ensures Consulted(seen0, held, j, name)
      ensures var d := JobStep(JobBare(old(Current()), seen0, held, j, name), faults, now, at);
        && d.job.Some? && (name.Some? ==> d.runner.Some? && d.seen.Some?)
        && Current() == PutCell(old(Current()), d, name) && seen == PutSeen(seen0, d, name)
    {
      hide SettleJob, ViewFresh, Consulted, SavedRow;
      seen := seen0;
      var found := Consult(j, seen, held);
      name := found;
      ghost var w := Current();
      ConsultedIsKnown(w, seen, held, j, name);
      NoJobPut(w, seen, j, name);
      var job := FailIfExpired(j, faults, now, at);
      if job.None? {
        return;
      }
      PutJobKeeps(w, job.value, seen);
      seen := SettleNow(j, seen, held, found, faults, at);
      LastJobCounts(w, job.value, SettleJob(JobBare(PutJob(w, job.value), seen0, held, j, name), faults, at), name);
    }

    method SettleJobs(seen0: Table<RunnerData>, held: Table<LeaseData>, faults: Faults, now: Time, at: Time,
        ghost ix: Index)
      returns (seen: Table<RunnerData>)
      requires ValidWorld(Current()) && ViewFresh(seen0, Current()) && HeldOf(held, Current())
      modifies state`jobs, state`runners, provider
      ensures SafeWorld(old(Current()), Current()) && ViewFresh(seen, Current()) && seen.Keys == seen0.Keys
      ensures Indexed(old(Current()), ix) ==>
        Advanced(old(Current()), seen0, Current(), seen, ix, JobOf(faults, now, at))
    {
      seen := seen0;
      var todo := state.jobs.Keys;
      ghost var w0 := Current();
      ghost var step := JobOf(faults, now, at);
      ghost var done: set<Key> := {};
      JobLoopStarts(w0, seen0, held, ix, step);
      while todo != {}
        invariant JobLoop(w0, seen0, Current(), seen, held, ix, step, todo, done)
        decreases todo
      {
        var j :| j in todo;
        ghost var w, before := Current(), seen;
        ghost var name;
        seen, name := SettleOneJob(j, seen, held, faults, now, at);
        JobTurn(w0, seen0, w, before, held, Current(), seen, j, name, ix, faults, now, at, todo, done);
        todo := todo - {j};
        done := done + {ForJob(j)};
      }
      JobLoopEnds(w0, seen0, Current(), seen, held, ix, faults, now, at, done);
    }

    /** One bounded pass over all durable records. */
    method Reconcile(faults: Faults, now: Time, at: Time, ghost ix: Index)
      requires ValidWorld(Current())
      modifies state`jobs, state`runners, state`leases, provider
      ensures SafeWorld(old(Current()), Current())
      ensures Indexed(old(Current()), ix) ==> Passed(old(Current()), Current(), ix, faults, now, at)
    {
      hide SafeWorld, Indexed, Advanced, HeldOf, ViewFresh, Passed, ValidWorld;
      ghost var w0 := Current();
      ViewOfAll(w0);
      var held := IndexLeases();
      var seen := state.runners;
      seen := RepairRunners(seen, faults, at, ix);
      ghost var w1, s1 := Current(), seen;
      HeldStays(held, w0, w1);
      SafeCarries(w0, w1, ix);
      held := RepairLeases(seen, held, faults, now, at, ix);
      ghost var w2 := Current();
      SafeCarries(w1, w2, ix);
      seen := SettleJobs(seen, held, faults, now, at, ix);
      ghost var w3, s3 := Current(), seen;
      SafeCarries(w2, w3, ix);
      seen := CleanOrphans(seen, faults, at, ix);
      ghost var w4, s4 := Current(), seen;
      SafeCarries(w3, w4, ix);
      seen := ReapRunners(seen, faults, now, at, ix);
      SafeThroughout(w0, w1, w2, w3, w4, Current());
      if Indexed(w0, ix) {
        StepsMakeAPass(w0, w1, s1, w2, w3, s3, w4, s4, Current(), seen, ix, faults, now, at);
      }
    }

    /** The narrow operation of the existing manager: the reaper alone, over ListExpiredRunners(now). */
    method ReapExpired(faults: Faults, now: Time, at: Time, ghost ix: Index)
      requires ValidWorld(Current())
      modifies state`runners, provider
      ensures SafeWorld(old(Current()), Current())
      ensures Indexed(old(Current()), ix) ==> Reaped(old(Current()), Current(), ix, faults, now, at)
    {
      hide SafeWorld, Indexed, Advanced;
      ghost var w0 := Current();
      var expired := map r | r in state.runners && Reapable(state.runners[r], now) :: state.runners[r];
      var seen := ReapRunners(expired, faults, now, at, ix);
      if Indexed(w0, ix) {
        SafeCarries(w0, Current(), ix);
        ExpiredSuffice(w0, expired, Current(), seen, ix, faults, now, at);
      }
    }
  }
}
