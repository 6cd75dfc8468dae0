/** The in-memory repository (controller/internal/state/memory.go): the reference semantics of storage. */
module Memory {
  import opened Common
  import opened Ordering
  import opened Records

  datatype Error = InvalidRecord | AlreadyExists | NotFound | RevisionConflict | EventConflict

  type Table<B> = map<string, Record<B>>

  /** Every row is stored under its own non-empty id and has been written at least once. */
  ghost predicate ValidTable<B>(t: Table<B>) {
    forall id | id in t :: id != "" && t[id].id == id && t[id].revision >= 1
  }

  // ---------------------------------------------------------------- rows

  function CreatedRow<B>(prior: Option<Record<B>>, v: Record<B>, at: Time): Result<Record<B>, Error> {
    if v.id == "" then Err(InvalidRecord)
    else if prior.Some? then Err(AlreadyExists)
    else
      var created := if v.createdAt == NO_TIME then at else v.createdAt;
      Ok(v.(revision := 1, createdAt := created, updatedAt := created))
  }

  function SavedRow<B>(prior: Option<Record<B>>, v: Record<B>, expected: int, at: Time): Result<Record<B>, Error> {
    if v.id == "" then Err(InvalidRecord)
    else if prior.None? && expected != 0 then Err(NotFound)
    else if prior.Some? && expected != prior.value.revision then Err(RevisionConflict)
    else
      var revision := if prior.None? then 1 else prior.value.revision + 1;
      var created := if v.createdAt == NO_TIME && prior.Some? then prior.value.createdAt else v.createdAt;
      Ok(v.(revision := revision, createdAt := created, updatedAt := at))
  }

  function Stored<B>(t: Table<B>, row: Result<Record<B>, Error>): Table<B> {
    if row.Ok? then t[row.value.id := row.value] else t
  }

  /** Which writes are accepted, a new id or the revision that is stored (0 for none), and what the others are told. */
  lemma WriteAcceptedIff<B>(prior: Option<Record<B>>, v: Record<B>, expected: int, at: Time)
    ensures CreatedRow(prior, v, at).Ok? <==> v.id != "" && prior.None?
    ensures SavedRow(prior, v, expected, at).Ok? <==>
      v.id != "" && expected == if prior.Some? then prior.value.revision else 0
    ensures v.id != "" && prior.Some? ==> CreatedRow(prior, v, at) == Err(AlreadyExists)
    ensures SavedRow(prior, v, expected, at) == Err(NotFound) <==> v.id != "" && prior.None? && expected != 0
    ensures SavedRow(prior, v, expected, at) == Err(RevisionConflict) <==>
      v.id != "" && prior.Some? && expected != prior.value.revision
  {
  }

  method CreateRecord<B>(rows: Table<B>, v: Record<B>, at: Time) returns (rows': Table<B>, r: Result<Record<B>, Error>)
    ensures r == CreatedRow(Get(rows, v.id), v, at) && rows' == Stored(rows, r)
  {
    rows' := rows;
    if v.id == "" {
      return rows, Err(InvalidRecord);
    }
    if v.id in rows {
      return rows, Err(AlreadyExists);
    }
    var row := v.(revision := 1);
    if row.createdAt == NO_TIME {
      row := row.(createdAt := at);
    }
    row := row.(updatedAt := row.createdAt);
    rows' := rows'[v.id := row];
    r := Ok(row);
  }

  method SaveRecord<B>(rows: Table<B>, v: Record<B>, expected: int, at: Time)
    returns (rows': Table<B>, r: Result<Record<B>, Error>)
    ensures r == SavedRow(Get(rows, v.id), v, expected, at) && rows' == Stored(rows, r)
  {
    if v.id == "" {
      return rows, Err(InvalidRecord);
    }
    var row := v;
    if v.id !in rows {
      if expected != 0 {
        return rows, Err(NotFound);
      }
      row := row.(revision := 1);
    } else {
      if expected != rows[v.id].revision {
        return rows, Err(RevisionConflict);
      }
      row := row.(revision := rows[v.id].revision + 1);
    }
    row := row.(updatedAt := at);
    if row.createdAt == NO_TIME && v.id in rows {
      row := row.(createdAt := rows[v.id].createdAt);
    }
    rows' := rows[v.id := row];
    r := Ok(row);
  }

  // ---------------------------------------------------------------- listing

  predicate ByID<B>(a: Record<B>, b: Record<B>) {
    StringLess(a.id, b.id)
  }

  /** `out` holds exactly the rows of `t` that satisfy `keep`, once each, by ascending id. */
  ghost predicate IsListing<B>(t: Table<B>, keep: Record<B> -> bool, out: seq<Record<B>>) {
    multiset(out) == multiset(Kept(t, keep, t.Keys)) && Ordered(ByID, out)
  }

  lemma ByIDStrictTotal<B(!new)>(s: multiset<Record<B>>)
    requires forall x, y | x in s && y in s && x.id == y.id :: x == y
    ensures StrictTotalOn(ByID<B>, s)
  {
    forall x: Record<B>, y: Record<B> ensures !ByID(x, x) && (x in s && y in s && x != y ==> ByID(x, y) || ByID(y, x)) {
      StringLessTotal(x.id, x.id);
      StringLessTotal(x.id, y.id);
    }
    forall x: Record<B>, y: Record<B>, z: Record<B> | ByID(x, y) && ByID(y, z) ensures ByID(x, z) {
      StringLessTransitive(x.id, y.id, z.id);
    }
  }

  /** A listing is determined by the table alone: map iteration order cannot show. */
  lemma ListingUnique<B(!new)>(t: Table<B>, keep: Record<B> -> bool, p: seq<Record<B>>, q: seq<Record<B>>)
    requires forall id | id in t :: t[id].id == id
    requires IsListing(t, keep, p) && IsListing(t, keep, q)
    ensures p == q
  {
    ByIDStrictTotal(multiset(Kept(t, keep, t.Keys)));
    OrderedUnique(ByID, p, q);
  }

  lemma {:induction false} OrderedPairs<T(!new)>(less: (T, T) -> bool, s: seq<T>, i: nat, j: nat)
    requires Ordered(less, s) && i < j < |s|
    ensures !less(s[j], s[i])
  {
    if i == 0 {
      assert s[j] == s[1..][j - 1];
    } else {
      OrderedPairs(less, s[1..], i - 1, j - 1);
    }
  }

  /** A listing, spelled out: the rows wanted, and ids that strictly ascend. */
  lemma ListingMeans<B(!new)>(t: Table<B>, keep: Record<B> -> bool, out: seq<Record<B>>)
    requires (forall id | id in t :: t[id].id == id) && IsListing(t, keep, out)
    ensures forall v :: v in out <==> v.id in t && t[v.id] == v && keep(v)
    ensures forall i, j | 0 <= i < j < |out| :: StringLess(out[i].id, out[j].id)
  {
    var kept := Kept(t, keep, t.Keys);
    assert forall v :: v in out <==> v in multiset(out);
    assert forall v :: v in kept <==> v in multiset(kept);
    forall i, j | 0 <= i < j < |out| ensures StringLess(out[i].id, out[j].id) {
      OrderedPairs(ByID, out, i, j);
      OnceEach(out, kept, i, j);
      assert out[i] in multiset(kept) && out[j] in multiset(kept);
      StringLessTotal(out[i].id, out[j].id);
    }
  }

  /** A sequence with a set's elements once each repeats nothing. */
  lemma OnceEach<T>(s: seq<T>, elements: set<T>, i: nat, j: nat)
    requires multiset(s) == multiset(elements) && i < j < |s|
    ensures s[i] != s[j]
  {
    var front, back := s[..j], s[j..];
    assert s == front + back;
    assert s[i] == front[i] && s[j] == back[0];
    assert multiset(front)[s[i]] >= 1 && multiset(back)[s[j]] >= 1;
    assert multiset(front)[s[i]] + multiset(back)[s[i]] == multiset(s)[s[i]] <= 1;
  }

  /** ListJobs, ListRunners and ListLeases: an unordered map range, a filter and a sort. */
  method ListRecords<B(!new)>(t: Table<B>, keep: Record<B> -> bool) returns (out: seq<Record<B>>)
    requires forall id | id in t :: t[id].id == id
    ensures IsListing(t, keep, out)
  {
    var found := Collect(t, keep);
    out := Sort(ByID, found);
    ByIDStrictTotal(multiset(found));
    SortKeeps(ByID, found);
    SortOrders(ByID, found);
  }

  // ---------------------------------------------------------------- events

  function Lookup(m: map<string, string>, k: string): string {
    if k in m then m[k] else ""
  }

  predicate MapsEqual(a: map<string, string>, b: map<string, string>) {
    |a| == |b| && forall k | k in a :: Lookup(b, k) == a[k]
  }

  predicate SameEvent(a: Event, b: Event) {
    a.(data := map[]) == b.(data := map[]) && MapsEqual(a.data, b.data)
  }

  function EventKey(v: Event): string {
    if v.key == "" then v.id else v.key
  }

  type Events = map<string, Event>

  /** Whether the event was added; a replay of the stored event is accepted and adds nothing. */
  function Inserted(events: Events, v: Event): Result<bool, Error> {
    var key := EventKey(v);
    if key == "" || v.kind == "" then Err(InvalidRecord)
    else if key in events then
      if SameEvent(events[key], v) then Ok(false) else Err(EventConflict)
    else Ok(true)
  }

  function AfterInsert(events: Events, v: Event): Events {
    if Inserted(events, v) == Ok(true) then events[EventKey(v) := v.(key := EventKey(v))] else events
  }

  /** Comparing the sizes and then one side's entries is equality, unless empty values are involved. */
  lemma MapsEqualIsEquality(a: map<string, string>, b: map<string, string>)
    requires "" !in a.Values
    ensures MapsEqual(a, b) <==> a == b
  {
    if MapsEqual(a, b) {
      forall k | k in a ensures k in b && b[k] == a[k] {
        assert a[k] in a.Values;
      }
      assert a.Keys <= b.Keys;
      assert |b.Keys - a.Keys| == |b| - |a|;
      assert b.Keys == a.Keys;
    }
  }

  function LongerThanAll(keys: seq<string>): (k: string)
    ensures forall i | 0 <= i < |keys| :: |keys[i]| < |k|
  {
    if keys == [] then "x"
    else
      var rest := LongerThanAll(keys[1..]);
      if |rest| > |keys[0]| then rest else keys[0] + "x"
  }

  lemma {:induction false} Listed(keys: set<string>) returns (s: seq<string>)
    ensures forall k :: k in s <==> k in keys
  {
    if keys == {} {
      s := [];
    } else {
      var k :| k in keys;
      s := Listed(keys - {k});
      s := s + [k];
    }
  }

  lemma FreshKey(keys: set<string>) returns (k: string)
    ensures k !in keys
  {
    var s := Listed(keys);
    k := LongerThanAll(s);
  }

  /** A payload is taken for no other payload exactly when none of its values is empty. */
  lemma MapsEqualIsEqualityIff(a: map<string, string>)
    ensures (forall b :: MapsEqual(a, b) ==> a == b) <==> "" !in a.Values
  {
    if "" in a.Values {
      var b := ConfusedWith(a);
      assert MapsEqual(a, b) && a != b;
    } else {
      forall b | MapsEqual(a, b) ensures a == b {
        MapsEqualIsEquality(a, b);
      }
    }
  }

  /** Renaming a key that holds the empty value goes unnoticed. */
  lemma ConfusedWith(a: map<string, string>) returns (b: map<string, string>)
    requires "" in a.Values
    ensures MapsEqual(a, b) && a != b
  {
    var k :| k in a && a[k] == "";
    var n := FreshKey(a.Keys);
    b := (a - {k})[n := ""];
    assert b.Keys == a.Keys - {k} + {n};
    assert |b| == |b.Keys| && |a| == |a.Keys|;
    assert k !in b;
  }

  /** So a stored event answers for another event exactly when one of its payload's values is empty. */
  lemma SameEventIsEqualityIff(a: Event)
    ensures (forall b :: SameEvent(a, b) ==> a == b) <==> "" !in a.data.Values
  {
    if "" in a.data.Values {
      var data := ConfusedWith(a.data);
      var b := a.(data := data);
      assert SameEvent(a, b) && a != b;
    } else {
      forall b | SameEvent(a, b) ensures a == b {
        MapsEqualIsEquality(a.data, b.data);
        assert a == a.(data := map[]).(data := a.data) && b == b.(data := map[]).(data := b.data);
      }
    }
  }

  /** Two different payloads that the repository takes for the same one. */
  lemma MapsEqualConfusesEmptyValues()
    ensures var a, b := map["attempt" := ""], map["outcome" := ""]; MapsEqual(a, b) && a != b
  {
    var a, b := map["attempt" := ""], map["outcome" := ""];
    assert "attempt" in a && "attempt" !in b;
  }

  /** Replaying an accepted event is idempotent exactly when its idempotency key was given. */
  lemma ReplayIsIdempotentIffKeyed(events: Events, v: Event)
    requires Inserted(events, v) == Ok(true)
    ensures Inserted(AfterInsert(events, v), v) == (if v.key != "" then Ok(false) else Err(EventConflict))
  {
    var stored := AfterInsert(events, v)[EventKey(v)];
    assert stored.(data := map[]).key == EventKey(v);
    assert v.(data := map[]).key == v.key;
  }

  predicate WantedEvent(v: Event, aggregate: string, since: Time) {
    && (aggregate == "" || v.jobID == aggregate || v.leaseID == aggregate || v.runnerID == aggregate)
    && (since == NO_TIME || !(v.occurredAt < since))
  }

  predicate ByTime(a: Event, b: Event) {
    if a.occurredAt == b.occurredAt then StringLess(a.key, b.key) else a.occurredAt < b.occurredAt
  }

  /** The answer of ListLifecycleEvents: the wanted events once each, by time and then key. */
  ghost predicate IsEventListing(events: Events, aggregate: string, since: Time, out: seq<Event>) {
    && multiset(out) == multiset(Kept(events, v => WantedEvent(v, aggregate, since), events.Keys))
    && Ordered(ByTime, out)
  }

  lemma ByTimeStrictTotal(s: multiset<Event>)
    requires forall x, y | x in s && y in s && x.key == y.key :: x == y
    ensures StrictTotalOn(ByTime, s)
  {
    forall x: Event, y: Event ensures !ByTime(x, x) && (x in s && y in s && x != y ==> ByTime(x, y) || ByTime(y, x)) {
      StringLessTotal(x.key, x.key);
      StringLessTotal(x.key, y.key);
    }
    forall x: Event, y: Event, z: Event | ByTime(x, y) && ByTime(y, z) ensures ByTime(x, z) {
      if x.occurredAt == y.occurredAt == z.occurredAt {
        StringLessTransitive(x.key, y.key, z.key);
      }
    }
  }

  /** An event listing, spelled out: whose events, since when, and in which order. */
  lemma EventListingMeans(events: Events, aggregate: string, since: Time, out: seq<Event>)
    requires (forall k | k in events :: events[k].key == k) && IsEventListing(events, aggregate, since, out)
    ensures forall v :: v in out <==>
      && v.key in events && events[v.key] == v
      && (aggregate != "" ==> aggregate in {v.jobID, v.leaseID, v.runnerID})
      && (since != NO_TIME ==> since <= v.occurredAt)
    ensures forall i, j | 0 <= i < j < |out| ::
      out[i].occurredAt < out[j].occurredAt ||
      (out[i].occurredAt == out[j].occurredAt && StringLess(out[i].key, out[j].key))
  {
    var kept := Kept(events, v => WantedEvent(v, aggregate, since), events.Keys);
    assert forall v :: v in out <==> v in multiset(out);
    assert forall v :: v in kept <==> v in multiset(kept);
    forall i, j | 0 <= i < j < |out|
      ensures out[i].occurredAt < out[j].occurredAt ||
        (out[i].occurredAt == out[j].occurredAt && StringLess(out[i].key, out[j].key))
    {
      OrderedPairs(ByTime, out, i, j);
      OnceEach(out, kept, i, j);
      assert out[i] in multiset(kept) && out[j] in multiset(kept);
      StringLessTotal(out[i].key, out[j].key);
    }
  }

  lemma EventListingUnique(events: Events, aggregate: string, since: Time, p: seq<Event>, q: seq<Event>)
    requires forall k | k in events :: events[k].key == k
    requires IsEventListing(events, aggregate, since, p) && IsEventListing(events, aggregate, since, q)
    ensures p == q
  {
    ByTimeStrictTotal(multiset(p));
    OrderedUnique(ByTime, p, q);
  }

  /** ListLifecycleEvents of the memory repository. */
  method ListEvents(events: Events, aggregate: string, since: Time) returns (out: seq<Event>)
    requires forall k | k in events :: events[k].key == k
    ensures IsEventListing(events, aggregate, since, out)
  {
    var found := Collect(events, v => WantedEvent(v, aggregate, since));
    out := Sort(ByTime, found);
    ByTimeStrictTotal(multiset(found));
    SortKeeps(ByTime, found);
    SortOrders(ByTime, found);
  }

  // ---------------------------------------------------------------- the repository

  datatype Store = Store(jobs: Table<JobData>, runners: Table<RunnerData>, leases: Table<LeaseData>, events: Events)

  datatype Mutation =
    | CreateJob(newJob: Job)
    | SaveJob(job: Job, expected: int)
    | CreateRunner(newRunner: Runner)
    | SaveRunner(runner: Runner, expected: int)
    | CreateLease(newLease: Lease)
    | SaveLease(lease: Lease, expected: int)
    | InsertEvent(event: Event)
    | DeleteEvent(key: string)

  datatype Reply =
    | JobReply(job: Result<Job, Error>)
    | RunnerReply(runner: Result<Runner, Error>)
    | LeaseReply(lease: Result<Lease, Error>)
    | EventReply(inserted: Result<bool, Error>)

  predicate Accepted(r: Reply) {
    match r
    case JobReply(x) => x.Ok?
    case RunnerReply(x) => x.Ok?
    case LeaseReply(x) => x.Ok?
    case EventReply(x) => x.Ok?
  }

  function Answer(s: Store, m: Mutation, at: Time): Reply {
    match m
    case CreateJob(v) => JobReply(CreatedRow(Get(s.jobs, v.id), v, at))
    case SaveJob(v, n) => JobReply(SavedRow(Get(s.jobs, v.id), v, n, at))
    case CreateRunner(v) => RunnerReply(CreatedRow(Get(s.runners, v.id), v, at))
    case SaveRunner(v, n) => RunnerReply(SavedRow(Get(s.runners, v.id), v, n, at))
    case CreateLease(v) => LeaseReply(CreatedRow(Get(s.leases, v.id), v, at))
    case SaveLease(v, n) => LeaseReply(SavedRow(Get(s.leases, v.id), v, n, at))
    case InsertEvent(v) => EventReply(Inserted(s.events, v))
    case DeleteEvent(k) => EventReply(Ok(true))
  }

  function Apply(s: Store, m: Mutation, at: Time): Store {
    match (m, Answer(s, m, at))
    case (InsertEvent(v), _) => s.(events := AfterInsert(s.events, v))
    case (DeleteEvent(k), _) => s.(events := s.events - {k})
    case (_, JobReply(r)) => s.(jobs := Stored(s.jobs, r))
    case (_, RunnerReply(r)) => s.(runners := Stored(s.runners, r))
    case (_, LeaseReply(r)) => s.(leases := Stored(s.leases, r))
    case (_, EventReply(_)) => s
  }

  class MemoryRepository {
    var jobs: Table<JobData>
    var runners: Table<RunnerData>
    var leases: Table<LeaseData>
    var events: Events

    ghost function Contents(): Store
      reads this
    {
      Store(jobs, runners, leases, events)
    }

    constructor ()
      ensures Contents() == Store(map[], map[], map[], map[])
    {
      jobs, runners, leases, events := map[], map[], map[], map[];
    }

    method SaveJob(v: Job, expected: int, at: Time) returns (r: Result<Job, Error>)
      modifies this`jobs
      ensures JobReply(r) == Answer(old(Contents()), Mutation.SaveJob(v, expected), at)
      ensures Contents() == Apply(old(Contents()), Mutation.SaveJob(v, expected), at)
    {
      jobs, r := SaveRecord(jobs, v, expected, at);
    }

    method SaveRunner(v: Runner, expected: int, at: Time) returns (r: Result<Runner, Error>)
      modifies this`runners
      ensures RunnerReply(r) == Answer(old(Contents()), Mutation.SaveRunner(v, expected), at)
      ensures Contents() == Apply(old(Contents()), Mutation.SaveRunner(v, expected), at)
    {
      runners, r := SaveRecord(runners, v, expected, at);
    }

    method SaveLease(v: Lease, expected: int, at: Time) returns (r: Result<Lease, Error>)
      modifies this`leases
      ensures LeaseReply(r) == Answer(old(Contents()), Mutation.SaveLease(v, expected), at)
      ensures Contents() == Apply(old(Contents()), Mutation.SaveLease(v, expected), at)
    {
      leases, r := SaveRecord(leases, v, expected, at);
    }

    method CreateJob(v: Job, at: Time) returns (r: Result<Job, Error>)
      modifies this`jobs
      ensures JobReply(r) == Answer(old(Contents()), Mutation.CreateJob(v), at)
      ensures Contents() == Apply(old(Contents()), Mutation.CreateJob(v), at)
    {
      jobs, r := CreateRecord(jobs, v, at);
    }

    method CreateRunner(v: Runner, at: Time) returns (r: Result<Runner, Error>)
      modifies this`runners
      ensures RunnerReply(r) == Answer(old(Contents()), Mutation.CreateRunner(v), at)
      ensures Contents() == Apply(old(Contents()), Mutation.CreateRunner(v), at)
    {
      runners, r := CreateRecord(runners, v, at);
    }

    method CreateLease(v: Lease, at: Time) returns (r: Result<Lease, Error>)
      modifies this`leases
      ensures LeaseReply(r) == Answer(old(Contents()), Mutation.CreateLease(v), at)
      ensures Contents() == Apply(old(Contents()), Mutation.CreateLease(v), at)
    {
      leases, r := CreateRecord(leases, v, at);
    }

    method InsertLifecycleEvent(v: Event) returns (r: Result<bool, Error>)
      modifies this`events
      ensures EventReply(r) == Answer(old(Contents()), InsertEvent(v), NO_TIME)
      ensures Contents() == Apply(old(Contents()), InsertEvent(v), NO_TIME)
    {
      var key := v.key;
      if key == "" {
        key := v.id;
      }
      if key == "" || v.kind == "" {
        return Err(InvalidRecord);
      }
      if key in events {
        if SameEvent(events[key], v) {
          return Ok(false);
        }
        return Err(EventConflict);
      }
      events := events[key := v.(key := key)];
      r := Ok(true);
    }

    method DeleteLifecycleEvent(key: string)
      modifies this`events
      ensures Contents() == Apply(old(Contents()), DeleteEvent(key), NO_TIME)
    {
      events := events - {key};
    }

    /** Any one mutation, as the file-backed repository passes it on. */
    method Perform(m: Mutation, at: Time) returns (r: Reply)
      modifies this
      ensures r == Answer(old(Contents()), m, at) && Contents() == Apply(old(Contents()), m, at)
    {
      match m
      case CreateJob(v) =>
        var x := CreateJob(v, at);
        r := JobReply(x);
      case SaveJob(v, n) =>
        var x := SaveJob(v, n, at);
        r := JobReply(x);
      case CreateRunner(v) =>
        var x := CreateRunner(v, at);
        r := RunnerReply(x);
      case SaveRunner(v, n) =>
        var x := SaveRunner(v, n, at);
        r := RunnerReply(x);
      case CreateLease(v) =>
        var x := CreateLease(v, at);
        r := LeaseReply(x);
      case SaveLease(v, n) =>
        var x := SaveLease(v, n, at);
        r := LeaseReply(x);
      case InsertEvent(v) =>
        var x := InsertLifecycleEvent(v);
        r := EventReply(x);
      case DeleteEvent(k) =>
        DeleteLifecycleEvent(k);
        r := EventReply(Ok(true));
    }
  }
}
