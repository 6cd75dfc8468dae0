/**
 The file-backed repository (controller/internal/state/file.go:46-283, 333-354): one JSON snapshot, committed by
 rewriting the backup and then the primary. A write either leaves its target or wholly replaces it.
 */
module FileStore {
  import opened Common
  import opened Records
  import opened Memory

  /** A file's bytes, up to JSON: a snapshot object whose tables may be missing, or anything else. */
  datatype Blob =
    | Snapshot(version: int, jobs: Option<Table<JobData>>, runners: Option<Table<RunnerData>>,
               leases: Option<Table<LeaseData>>, events: Option<Events>)
    | Junk

  datatype Disk = Disk(primary: Option<Blob>, backup: Option<Blob>)

  const VERSION := 1

  const EMPTY := Store(map[], map[], map[], map[])

  function Encode(s: Store): Blob {
    Snapshot(VERSION, Some(s.jobs), Some(s.runners), Some(s.leases), Some(s.events))
  }

  function OrEmpty<K, V>(m: Option<map<K, V>>): map<K, V> {
    if m.Some? then m.value else map[]
  }

  predicate KeyedByID<B>(t: Table<B>) {
    forall id | id in t :: id != "" && t[id].id != "" && id == t[id].id
  }

  predicate KeyedByKey(events: Events) {
    forall k | k in events :: k != "" && events[k].key != "" && k == events[k].key && events[k].kind != ""
  }

  predicate Acceptable(s: Store) {
    KeyedByID(s.jobs) && KeyedByID(s.runners) && KeyedByID(s.leases) && KeyedByKey(s.events)
  }

  /** decodeSnapshot */
  function Decode(b: Blob): Option<Store> {
    if b.Junk? || b.version != VERSION then None
    else
      var s := Store(OrEmpty(b.jobs), OrEmpty(b.runners), OrEmpty(b.leases), OrEmpty(b.events));
      if Acceptable(s) then Some(s) else None
  }

  function Read(file: Option<Blob>): Option<Store> {
    if file.None? then None else Decode(file.value)
  }

  /** What the next fault-free start will serve; None when it will refuse to start. */
  function Content(d: Disk): Option<Store> {
    if Read(d.primary).Some? then Read(d.primary)
    else if Read(d.backup).Some? then Read(d.backup)
    else if d.primary.None? && d.backup.None? then Some(EMPTY)
    else None
  }

  /** Every state the memory repository can reach encodes to a snapshot that is accepted again. */
  lemma EveryStateIsAccepted(s: Store, m: Mutation, at: Time)
    requires Acceptable(s)
    ensures Acceptable(Apply(s, m, at))
    ensures Decode(Encode(Apply(s, m, at))) == Some(Apply(s, m, at))
  {
    hide KeyedByID, KeyedByKey, CreatedRow, SavedRow, Stored, AfterInsert;
    match m
    case CreateJob(v) => CreatedStaysKeyed(s.jobs, v, at);
    case SaveJob(v, n) => SavedStaysKeyed(s.jobs, v, n, at);
    case CreateRunner(v) => CreatedStaysKeyed(s.runners, v, at);
    case SaveRunner(v, n) => SavedStaysKeyed(s.runners, v, n, at);
    case CreateLease(v) => CreatedStaysKeyed(s.leases, v, at);
    case SaveLease(v, n) => SavedStaysKeyed(s.leases, v, n, at);
    case InsertEvent(v) => InsertStaysKeyed(s.events, v);
    case DeleteEvent(k) => DeleteStaysKeyed(s.events, k);
  }

  lemma CreatedStaysKeyed<B>(t: Table<B>, v: Record<B>, at: Time)
    requires KeyedByID(t)
    ensures KeyedByID(Stored(t, CreatedRow(Get(t, v.id), v, at)))
  {
  }

  lemma SavedStaysKeyed<B>(t: Table<B>, v: Record<B>, expected: int, at: Time)
    requires KeyedByID(t)
    ensures KeyedByID(Stored(t, SavedRow(Get(t, v.id), v, expected, at)))
  {
  }

  lemma InsertStaysKeyed(events: Events, v: Event)
    requires KeyedByKey(events)
    ensures KeyedByKey(AfterInsert(events, v))
  {
  }

  lemma DeleteStaysKeyed(events: Events, key: string)
    requires KeyedByKey(events)
    ensures KeyedByKey(events - {key})
  {
  }

  // ---------------------------------------------------------------- one commit

  /** How one atomicWrite ends: the rename is the moment it takes effect, and can be followed by a failure. */
  datatype Fate = Done | FailedBefore | FailedAfter | CrashedBefore | CrashedAfter

  predicate Replaces(f: Fate) {
    f.Done? || f.FailedAfter? || f.CrashedAfter?
  }

  datatype Wrote = Written | Refused | Stopped

  function End(f: Fate): Wrote {
    match f
    case Done => Written
    case FailedBefore => Refused
    case FailedAfter => Refused
    case CrashedBefore => Stopped
    case CrashedAfter => Stopped
  }

  /** `unread`: reading the primary back, in order to keep it as the backup, fails. */
  datatype Faults = Faults(unread: bool, backup: Fate, primary: Fate)

  function Previous(d: Disk, previous: Option<Blob>, f: Faults): Option<Blob> {
    if previous.Some? then previous else if f.unread then None else d.primary
  }

  predicate ReachesPrimary(d: Disk, previous: Option<Blob>, f: Faults) {
    Previous(d, previous, f).None? || f.backup.Done?
  }

  function Committed(d: Disk, s: Store, previous: Option<Blob>, f: Faults): Disk {
    var p := Previous(d, previous, f);
    Disk(if ReachesPrimary(d, previous, f) && Replaces(f.primary) then Some(Encode(s)) else d.primary,
         if p.Some? && Replaces(f.backup) then p else d.backup)
  }

  function CommitEnd(d: Disk, previous: Option<Blob>, f: Faults): Wrote {
    if ReachesPrimary(d, previous, f) then End(f.primary) else End(f.backup)
  }

  /** A call is written through unless memory refuses it or it is the replay of a stored event. */
  predicate NeedsCommit(s: Store, m: Mutation, at: Time) {
    Accepted(Answer(s, m, at)) && Answer(s, m, at) != EventReply(Ok(false))
  }

  datatype Outcome = Replied(reply: Reply) | WriteFailed | Crashed

  // ---------------------------------------------------------------- the repository

  /** Faults of a start: the primary read, the backup read, the permission change, the recovery commit. */
  datatype StartFaults = StartFaults(unreadable: bool, backupUnreadable: bool, chmod: bool, commit: Faults)

  datatype Started = Serving | NotStarted | StartCrashed

  class FileRepository {
    var disk: Disk
    const mem: MemoryRepository

    /** The files as an earlier process left them. */
    constructor (found: Disk)
      ensures disk == found && fresh(mem) && mem.Contents() == EMPTY
    {
      disk := found;
      mem := new MemoryRepository();
    }

    method Restore(s: Store)
      modifies mem
      ensures mem.Contents() == s
    {
      mem.jobs, mem.runners, mem.leases, mem.events := s.jobs, s.runners, s.leases, s.events;
    }

    method AtomicWrite(toBackup: bool, data: Blob, fate: Fate) returns (end: Wrote)
      modifies this
      ensures end == End(fate)
      ensures disk == if !Replaces(fate) then old(disk)
        else if toBackup then old(disk).(backup := Some(data)) else old(disk).(primary := Some(data))
    {
      if Replaces(fate) {
        disk := if toBackup then disk.(backup := Some(data)) else disk.(primary := Some(data));
      }
      end := End(fate);
    }

    /** writeLocked */
    method Commit(previous: Option<Blob>, f: Faults) returns (end: Wrote)
      modifies this
      ensures disk == Committed(old(disk), mem.Contents(), previous, f) && end == CommitEnd(old(disk), previous, f)
    {
      var data := Snapshot(VERSION, Some(mem.jobs), Some(mem.runners), Some(mem.leases), Some(mem.events));
      var kept := previous;
      if kept.None? && !f.unread {
        kept := disk.primary;
      }
      if kept.Some? {
        end := AtomicWrite(true, kept.value, f.backup);
        if end != Written {
          return;
        }
      }
      end := AtomicWrite(false, data, f.primary);
    }

    /** load: the primary, or else the backup, or else an empty repository. */
    method Load(f: StartFaults) returns (started: Started)
      requires mem.Contents() == EMPTY
      modifies this, mem
      ensures started == Start(old(disk), f).0 && disk == Start(old(disk), f).1
      ensures started.Serving? ==> Start(old(disk), f).2 == Some(mem.Contents())
    {
      if f.unreadable {
        return NotStarted;
      }
      if disk.primary.Some? {
        var found := Decode(disk.primary.value);
        if found.Some? {
          if f.chmod {
            return NotStarted;
          }
          Restore(found.value);
          return Serving;
        }
        if disk.backup.Some? && !f.backupUnreadable {
          var recovered := Decode(disk.backup.value);
          if recovered.Some? {
            Restore(recovered.value);
            started := Finish(disk.backup, f.commit);
            return;
          }
        }
        return NotStarted;
      }
      if disk.backup.Some? && !f.backupUnreadable {
        var recovered := Decode(disk.backup.value);
        if recovered.None? {
          return NotStarted;
        }
        Restore(recovered.value);
        started := Finish(disk.backup, f.commit);
        return;
      }
      started := Finish(None, f.commit);
    }

    method Finish(previous: Option<Blob>, f: Faults) returns (started: Started)
      modifies this
      ensures disk == Committed(old(disk), mem.Contents(), previous, f)
      ensures started == AsStart(CommitEnd(old(disk), previous, f))
    {
      var end := Commit(previous, f);
      started := AsStart(end);
    }

    /** mutate and the save helpers: change memory, commit, and roll memory back if the commit failed. */
    method Mutate(m: Mutation, at: Time, f: Faults) returns (r: Outcome)
      modifies this, mem
      ensures (r, disk) == Mutated(old(mem.Contents()), old(disk), m, at, f)
      ensures r.Replied? ==> mem.Contents() == Apply(old(mem.Contents()), m, at)
      ensures r.WriteFailed? ==> mem.Contents() == old(mem.Contents())
    {
      var before := Store(mem.jobs, mem.runners, mem.leases, mem.events);
      var reply := mem.Perform(m, at);
      if !Accepted(reply) || reply == EventReply(Ok(false)) {
        return Replied(reply);
      }
      var end := Commit(None, f);
      match end
      case Written => r := Replied(reply);
      case Refused =>
        Restore(before);
        r := WriteFailed;
      case Stopped => r := Crashed;
    }
  }

  function AsStart(w: Wrote): Started {
    match w
    case Written => Serving
    case Refused => NotStarted
    case Stopped => StartCrashed
  }

  /** How a start ends, the files it leaves and the store it serves. */
  function Start(d: Disk, f: StartFaults): (Started, Disk, Option<Store>) {
    if f.unreadable then (NotStarted, d, None)
    else if d.primary.Some? && Read(d.primary).Some? then
      if f.chmod then (NotStarted, d, None) else (Serving, d, Read(d.primary))
    else if d.backup.Some? && !f.backupUnreadable then
      if Read(d.backup).None? then (NotStarted, d, None)
      else Recovery(d, Read(d.backup).value, d.backup, f.commit)
    else if d.primary.Some? then (NotStarted, d, None)
    else Recovery(d, EMPTY, None, f.commit)
  }

  function Recovery(d: Disk, s: Store, previous: Option<Blob>, f: Faults): (Started, Disk, Option<Store>) {
    (AsStart(CommitEnd(d, previous, f)), Committed(d, s, previous, f), Some(s))
  }

  function Mutated(s: Store, d: Disk, m: Mutation, at: Time, f: Faults): (Outcome, Disk) {
    if !NeedsCommit(s, m, at) then (Replied(Answer(s, m, at)), d)
    else
      (match CommitEnd(d, None, f)
       case Written => Replied(Answer(s, m, at))
       case Refused => WriteFailed
       case Stopped => Crashed, Committed(d, Apply(s, m, at), None, f))
  }

  // ---------------------------------------------------------------- crash recovery

  /** The primary was wholly replaced by this call's snapshot. */
  predicate TookEffect(s: Store, d: Disk, m: Mutation, at: Time, f: Faults) {
    NeedsCommit(s, m, at) && ReachesPrimary(d, None, f) && Replaces(f.primary)
  }

  /**
   Wherever a mutation fails or crashes, the next start serves the state before it or the state after it: the
   latter exactly when the primary was replaced, which every acknowledged change did.
   */
  lemma MutationIsAtomic(s: Store, d: Disk, m: Mutation, at: Time, f: Faults)
    requires Acceptable(s) && Read(d.primary).Some?
    ensures var (r, d') := Mutated(s, d, m, at, f);
      && Content(d') == (if TookEffect(s, d, m, at, f) then Some(Apply(s, m, at)) else Content(d))
      && Read(d'.primary).Some?
      && (r.Replied? && NeedsCommit(s, m, at) ==> TookEffect(s, d, m, at, f))
  {
    hide Apply, Decode, Acceptable, Answer, Encode;
    EveryStateIsAccepted(s, m, at);
  }

  /** A call is written through exactly if it changes the store or deletes; nothing else could need to be. */
  lemma NeedsCommitIff(s: Store, m: Mutation, at: Time)
    requires Acceptable(s)
    ensures NeedsCommit(s, m, at) <==> Apply(s, m, at) != s || m.DeleteEvent?
  {
    if NeedsCommit(s, m, at) && !m.DeleteEvent? {
      match m
      case CreateJob(v) => StoringChanges(s.jobs, CreatedRow(Get(s.jobs, v.id), v, at));
      case SaveJob(v, n) => StoringChanges(s.jobs, SavedRow(Get(s.jobs, v.id), v, n, at));
      case CreateRunner(v) => StoringChanges(s.runners, CreatedRow(Get(s.runners, v.id), v, at));
      case SaveRunner(v, n) => StoringChanges(s.runners, SavedRow(Get(s.runners, v.id), v, n, at));
      case CreateLease(v) => StoringChanges(s.leases, CreatedRow(Get(s.leases, v.id), v, at));
      case SaveLease(v, n) => StoringChanges(s.leases, SavedRow(Get(s.leases, v.id), v, n, at));
      case InsertEvent(v) => assert EventKey(v) in AfterInsert(s.events, v) && EventKey(v) !in s.events;
    }
  }

  lemma StoringChanges<B>(t: Table<B>, row: Result<Record<B>, Error>)
    requires row.Ok? && (row.value.id in t ==> t[row.value.id].revision != row.value.revision)
    ensures Stored(t, row) != t
  {
    assert row.value.id in Stored(t, row) && Stored(t, row)[row.value.id] == row.value;
  }

  /** An acknowledged call is in the files; and every call is acknowledged if all its writes are done. */
  lemma AcknowledgedIsStored(s: Store, d: Disk, m: Mutation, at: Time, f: Faults)
    requires Acceptable(s) && Read(d.primary) == Some(s)
    ensures Mutated(s, d, m, at, f).0.Replied? ==> Content(Mutated(s, d, m, at, f).1) == Some(Apply(s, m, at))
    ensures f.backup.Done? && f.primary.Done? ==> Mutated(s, d, m, at, f).0 == Replied(Answer(s, m, at))
  {
    hide Apply, Decode, Acceptable, Answer, Encode;
    EveryStateIsAccepted(s, m, at);
    NeedsCommitIff(s, m, at);
  }

  /**
   After a failed write memory is rolled back, and agrees with the files exactly when the primary was not
   replaced.
   */
  lemma RollbackAgreesIff(s: Store, d: Disk, m: Mutation, at: Time, f: Faults)
    requires Acceptable(s) && Read(d.primary) == Some(s) && Mutated(s, d, m, at, f).0.WriteFailed?
    ensures Content(Mutated(s, d, m, at, f).1) == Some(s) <==>
      !(f.primary.FailedAfter? && ReachesPrimary(d, None, f)) || Apply(s, m, at) == s
  {
    hide Apply, Decode, Acceptable, Answer, Encode;
    EveryStateIsAccepted(s, m, at);
  }

  /** Starting serves what the files hold and, wherever it fails or crashes, leaves it to be served again. */
  lemma StartIsSafe(d: Disk, f: StartFaults)
    requires Content(d).Some? && !(d.primary.None? && d.backup.Some? && f.backupUnreadable)
    ensures Content(Start(d, f).1) == Content(d)
    ensures Start(d, f).0.Serving? ==> Start(d, f).2 == Content(d) && Read(Start(d, f).1.primary) == Content(d)
  {
  }

  /**
   Exactly when a start serves: from an acceptable primary if its permissions can be set, else from an acceptable
   backup that can be read and both writes, else, with no primary and no readable backup, from nothing and one write.
   */
  lemma StartServesIff(d: Disk, f: StartFaults)
    ensures Start(d, f).0.Serving? ==> !f.unreadable
    ensures !f.unreadable && Read(d.primary).Some? ==> (Start(d, f).0.Serving? <==> !f.chmod)
    ensures !f.unreadable && Read(d.primary).None? && d.backup.Some? && !f.backupUnreadable ==>
      (Start(d, f).0.Serving? <==> Read(d.backup).Some? && f.commit.backup.Done? && f.commit.primary.Done?)
    ensures !f.unreadable && Read(d.primary).None? && (d.backup.None? || f.backupUnreadable) ==>
      (Start(d, f).0.Serving? <==> d.primary.None? && f.commit.primary.Done?)
  {
  }

  /** Without faults a start serves exactly if the files hold something acceptable, or nothing at all. */
  lemma FaultFreeStartServesIff(d: Disk, f: StartFaults)
    requires f == StartFaults(false, false, false, Faults(false, Done, Done))
    ensures Start(d, f).0.Serving? <==>
      Read(d.primary).Some? || Read(d.backup).Some? || (d.primary.None? && d.backup.None?)
    ensures Start(d, f).0.Serving? && Read(d.primary).Some? ==> Start(d, f).2 == Read(d.primary)
    ensures Start(d, f).0.Serving? && Read(d.primary).None? ==>
      Start(d, f).2 == Some(if Read(d.backup).Some? then Read(d.backup).value else EMPTY)
  {
  }

  predicate Forgets(d: Disk, f: StartFaults) {
    && d.primary.None? && d.backup.Some? && f.backupUnreadable && !f.unreadable && Replaces(f.commit.primary)
  }

  /** What was stored is lost exactly when the primary is missing and the backup cannot be read at that moment. */
  lemma StartForgetsIff(d: Disk, f: StartFaults)
    requires Content(d).Some?
    ensures Content(Start(d, f).1) == Content(d) <==> !Forgets(d, f) || Content(d) == Some(EMPTY)
    ensures Forgets(d, f) ==> Content(Start(d, f).1) == Some(EMPTY)
  {
  }

  /** A primary damaged after an acknowledged change costs that change only, if it could be backed up. */
  lemma DamageRestoresPrevious(s: Store, d: Disk, m: Mutation, at: Time, f: Faults, damaged: Option<Blob>)
    requires Acceptable(s) && Read(d.primary) == Some(s)
    requires NeedsCommit(s, m, at) && Mutated(s, d, m, at, f).0.Replied? && Read(damaged).None?
    ensures Content(Mutated(s, d, m, at, f).1.(primary := damaged)) == Some(s)
      <==> !f.unread || Content(d.(primary := damaged)) == Some(s)
  {
  }

  // ---------------------------------------------------------------- whole lives of the files

  datatype Life = Life(disk: Disk, serving: Option<Store>)

  datatype Step = Restart(start: StartFaults) | Call(mutation: Mutation, at: Time, faults: Faults)

  /** A call reaches a serving process only; a crash ends it. */
  function Live(l: Life, e: Step): Life {
    match e
    case Restart(f) => var (r, d, s) := Start(l.disk, f); Life(d, if r.Serving? then s else None)
    case Call(m, at, f) =>
      if l.serving.None? then l
      else
        var s := l.serving.value;
        var (r, d) := Mutated(s, l.disk, m, at, f);
        Life(d, match r case Replied(_) => Some(Apply(s, m, at)) case WriteFailed => Some(s) case Crashed => None)
  }

  function Lived(l: Life, steps: seq<Step>): Life {
    if steps == [] then l else Live(Lived(l, steps[..|steps| - 1]), steps[|steps| - 1])
  }

  /** The call changes the store or deletes, and its snapshot wholly replaced the primary. */
  predicate Replaced(s: Store, d: Disk, e: Step)
    requires e.Call?
  {
    && (Apply(s, e.mutation, e.at) != s || e.mutation.DeleteEvent?)
    && (e.faults.unread || d.primary.None? || e.faults.backup.Done?)
    && (e.faults.primary.Done? || e.faults.primary.FailedAfter? || e.faults.primary.CrashedAfter?)
  }

  lemma ReplacedIffTookEffect(s: Store, d: Disk, e: Step)
    requires Acceptable(s) && e.Call?
    ensures Replaced(s, d, e) <==> TookEffect(s, d, e.mutation, e.at, e.faults)
  {
    hide Apply, Answer, Acceptable;
    NeedsCommitIff(s, e.mutation, e.at);
  }

  /** The store the files should serve: changed only by calls that replaced the primary. */
  function LastReplaced(l: Life, steps: seq<Step>): Option<Store> {
    if steps == [] then Content(l.disk)
    else
      var n := |steps| - 1;
      var b, e := Lived(l, steps[..n]), steps[n];
      if e.Call? && b.serving.Some? && Replaced(b.serving.value, b.disk, e) then
        Some(Apply(b.serving.value, e.mutation, e.at))
      else LastReplaced(l, steps[..n])
  }

  predicate Careful(e: Step) {
    e.Restart? ==> !e.start.backupUnreadable
  }

  /**
   Over every sequence of starts, calls, failures and crashes, the files hold exactly the outcome of the last call
   that replaced the primary, and a start that succeeds serves it.
   */
  lemma {:induction false} NothingIsLost(l: Life, steps: seq<Step>)
    requires l.serving.None? && Content(l.disk).Some? && forall i | 0 <= i < |steps| :: Careful(steps[i])
    ensures var e := Lived(l, steps);
      && LastReplaced(l, steps).Some? && Content(e.disk) == LastReplaced(l, steps)
      && (e.serving.Some? ==> Acceptable(e.serving.value) && Read(e.disk.primary).Some?)
      && (steps != [] && steps[|steps| - 1].Restart? && e.serving.Some? ==> e.serving == LastReplaced(l, steps))
  {
    if steps == [] {
    } else {
      var n := |steps| - 1;
      NothingIsLost(l, steps[..n]);
      var b := Lived(l, steps[..n]);
      match steps[n]
      case Restart(f) => StartIsSafe(b.disk, f);
      case Call(m, at, f) =>
        if b.serving.Some? {
          MutationIsAtomic(b.serving.value, b.disk, m, at, f);
          EveryStateIsAccepted(b.serving.value, m, at);
          ReplacedIffTookEffect(b.serving.value, b.disk, steps[n]);
        }
    }
  }

  /** This call's rename took effect, but it was reported as a failure. */
  predicate HalfFailed(e: Step) {
    e.Call? && e.faults.primary.FailedAfter?
  }

  lemma StepKeepsAgreement(l: Life, e: Step)
    requires Content(l.disk).Some? && Careful(e) && !HalfFailed(e)
    requires l.serving.Some? ==> Acceptable(l.serving.value) && Read(l.disk.primary) == l.serving
    ensures var l' := Live(l, e);
      && Content(l'.disk).Some?
      && (l'.serving.Some? ==> Acceptable(l'.serving.value) && Read(l'.disk.primary) == l'.serving)
  {
    hide Apply, Decode, Acceptable, Answer, Encode;
    match e
    case Restart(f) =>
      StartIsSafe(l.disk, f);
      ReadIsAcceptable(Live(l, e).disk.primary);
    case Call(m, at, f) =>
      if l.serving.Some? {
        MutationIsAtomic(l.serving.value, l.disk, m, at, f);
        AcknowledgedIsStored(l.serving.value, l.disk, m, at, f);
        EveryStateIsAccepted(l.serving.value, m, at);
      }
  }

  lemma ReadIsAcceptable(file: Option<Blob>)
    ensures Read(file).Some? ==> Acceptable(Read(file).value)
  {
  }

  /**
   Conversely, over every life in which no rename took effect and was still reported as failed, a serving process
   and its files hold the same.
   */
  lemma {:induction false} FilesHoldWhatIsServed(l: Life, steps: seq<Step>)
    requires l.serving.None? && Content(l.disk).Some?
    requires forall i | 0 <= i < |steps| :: Careful(steps[i]) && !HalfFailed(steps[i])
    ensures var e := Lived(l, steps);
      Content(e.disk).Some? && (e.serving.Some? ==> Acceptable(e.serving.value) && Read(e.disk.primary) == e.serving)
  {
    if steps == [] {
    } else {
      hide Live;
      FilesHoldWhatIsServed(l, steps[..|steps| - 1]);
      StepKeepsAgreement(Lived(l, steps[..|steps| - 1]), steps[|steps| - 1]);
    }
  }
}
