/**
 Lifecycle events in DynamoDB (controller/internal/state/dynamodb/repository.go:791-1010): one marker per
 idempotency key and one copy per aggregate, written and deleted in transactions. The memory repository's map of
 events is the specification.
 */
module EventTable {
  import opened Common
  import opened Ordering
  import opened Records
  import opened Memory
  import opened OptimisticWrites
  import opened Paging

  /** Partition "aggregate#<id>", sort key "event#<time>#<key>"; both encodings are injective. */
  datatype CopyKey = CopyKey(aggregate: string, at: Time, key: string)

  /** What "idempotency#<key>" records: the event's fingerprint and where its copies are. */
  datatype Marker = Marker(fingerprint: Event, places: set<CopyKey>)

  datatype Table = Table(markers: map<string, Marker>, copies: map<CopyKey, Event>)

  const NO_TABLE := Table(map[], map[])

  function Aggregates(v: Event): set<string> {
    var named := {v.jobID, v.leaseID, v.runnerID} - {""};
    if named == {} then {""} else named
  }

  lemma SomeAggregate(v: Event)
    ensures Aggregates(v) != {}
    ensures "" in Aggregates(v) <==> v.jobID == v.leaseID == v.runnerID == ""
    ensures forall x | x != "" :: x in Aggregates(v) <==> x in {v.jobID, v.leaseID, v.runnerID}
  {
    var named := {v.jobID, v.leaseID, v.runnerID} - {""};
    if v.jobID != "" {
      assert v.jobID in named;
    } else if v.leaseID != "" {
      assert v.leaseID in named;
    } else if v.runnerID != "" {
      assert v.runnerID in named;
    }
  }

  function Places(v: Event): set<CopyKey> {
    set a | a in Aggregates(v) :: CopyKey(a, v.occurredAt, v.key)
  }

  /** The key is filled in from the id and a missing time from the clock before anything is written. */
  function Prepared(v: Event, now: Time): Event {
    v.(key := EventKey(v), occurredAt := if v.occurredAt == NO_TIME then now else v.occurredAt)
  }

  /** aggregateIDs: each non-empty id once, sorted; a single empty id when there is none. */
  method AggregateIDs(v: Event) returns (ids: seq<string>)
    ensures multiset(ids) == multiset(Aggregates(v)) && Ordered(StringLess, ids)
  {
    var candidates := [v.jobID, v.leaseID, v.runnerID];
    ids := [];
    for i := 0 to |candidates|
      invariant forall x :: x in ids <==> x in candidates[..i] && x != ""
      invariant forall j, k | 0 <= j < k < |ids| :: ids[j] != ids[k]
    {
      if candidates[i] != "" && candidates[i] !in ids {
        ids := ids + [candidates[i]];
      }
    }
    assert candidates[..3] == candidates;
    assert v.jobID in candidates && v.leaseID in candidates && v.runnerID in candidates;
    if |ids| == 0 {
      ids := [""];
    } else {
      assert ids[0] in candidates && ids[0] != "";
    }
    SomeAggregate(v);
    assert candidates[0] == v.jobID && candidates[1] == v.leaseID && candidates[2] == v.runnerID;
    assert forall x :: x in candidates <==> x in {v.jobID, v.leaseID, v.runnerID};
    DistinctBag(ids, Aggregates(v));
    ghost var found := ids;
    ids := Sort(StringLess, ids);
    SortKeeps(StringLess, found);
    TextsAreOrdered(multiset(found));
    SortOrders(StringLess, found);
  }

  lemma TextsAreOrdered(s: multiset<string>)
    ensures StrictTotalOn(StringLess, s)
  {
    forall x: string, y: string ensures !StringLess(x, x) && (x != y ==> StringLess(x, y) || StringLess(y, x)) {
      StringLessTotal(x, y);
    }
    forall x: string, y: string, z: string | StringLess(x, y) && StringLess(y, z) ensures StringLess(x, z) {
      StringLessTransitive(x, y, z);
    }
  }

  /** A sequence without repetitions is, as a bag, the set of its elements. */
  lemma {:induction false} DistinctBag<T>(s: seq<T>, elements: set<T>)
    requires (forall j, k | 0 <= j < k < |s| :: s[j] != s[k]) && forall x :: x in s <==> x in elements
    ensures multiset(s) == multiset(elements)
  {
    if s == [] {
    } else {
      var n := |s| - 1;
      assert s == s[..n] + [s[n]];
      DistinctBag(s[..n], elements - {s[n]});
    }
  }

  // ---------------------------------------------------------------- transactions

  /** The insert transaction: every key it writes must be new, or nothing is written. */
  predicate CanInsert(t: Table, v: Event) {
    v.key !in t.markers && forall p | p in Places(v) :: p !in t.copies
  }

  function CommitInsert(t: Table, v: Event): Table {
    if !CanInsert(t, v) then t
    else Table(t.markers[v.key := Marker(v, Places(v))], t.copies + map p | p in Places(v) :: v)
  }

  /** The delete transaction: the marker must exist; the copies deleted are those the caller read before. */
  function CommitDelete(t: Table, key: string, seen: Marker): Table {
    if key !in t.markers then t else Table(t.markers - {key}, t.copies - seen.places)
  }

  /** A marker is present exactly with its recorded copies, all of one event. */
  ghost predicate Consistent(t: Table) {
    && (forall k | k in t.markers ::
        t.markers[k].fingerprint.key == k && t.markers[k].places == Places(t.markers[k].fingerprint))
    && (forall k, p | k in t.markers && p in t.markers[k].places ::
        p in t.copies && t.copies[p] == t.markers[k].fingerprint)
    && (forall p | p in t.copies :: p.key in t.markers && p in t.markers[p.key].places)
  }

  /** The events the table stands for. */
  function Meaning(t: Table): Events {
    map k | k in t.markers :: t.markers[k].fingerprint
  }

  /** An unused key has no copies either, so an insert is refused only for a key that is marked. */
  lemma CanInsertIffUnmarked(t: Table, v: Event)
    requires Consistent(t)
    ensures CanInsert(t, v) <==> v.key !in t.markers
  {
    hide Aggregates;
  }

  lemma InsertKeepsConsistent(t: Table, v: Event)
    requires Consistent(t)
    ensures Consistent(CommitInsert(t, v))
    ensures CanInsert(t, v) <==> v.key !in t.markers
    ensures Meaning(CommitInsert(t, v)) == if v.key in Meaning(t) then Meaning(t) else Meaning(t)[v.key := v]
  {
    CanInsertIffUnmarked(t, v);
    if v.key !in t.markers {
      NewPlacesFit(t, v);
      NewMeaning(t, v);
    }
    hide Consistent, Places, CanInsert;
  }

  lemma NewMeaning(t: Table, v: Event)
    requires CanInsert(t, v)
    ensures Meaning(CommitInsert(t, v)) == Meaning(t)[v.key := v]
  {
    hide Places;
  }

  lemma NewPlacesFit(t: Table, v: Event)
    requires Consistent(t) && v.key !in t.markers && CanInsert(t, v)
    ensures Consistent(CommitInsert(t, v))
  {
    KeysOfPlaces(v);
    hide Places, CanInsert;
    var t' := CommitInsert(t, v);
    forall k, p | k in t'.markers && p in t'.markers[k].places
      ensures p in t'.copies && t'.copies[p] == t'.markers[k].fingerprint
    {
      if k != v.key {
        PlacedUnderItsKey(t, k, p);
      }
    }
    forall p | p in t'.copies ensures p.key in t'.markers && p in t'.markers[p.key].places {
      if p !in Places(v) {
        assert p in t.copies;
      }
    }
  }

  lemma KeysOfPlaces(v: Event)
    ensures forall p | p in Places(v) :: p.key == v.key
  {
  }

  lemma PlacedUnderItsKey(t: Table, k: string, p: CopyKey)
    requires Consistent(t) && k in t.markers && p in t.markers[k].places
    ensures p.key == k
  {
  }

  /** A marker read before still describes all that a delete of its key has to remove. */
  predicate Undisturbed(t: Table, key: string, seen: Marker) {
    key in t.markers ==> t.markers[key].places <= seen.places
  }

  lemma UndisturbedDelete(t: Table, key: string, seen: Marker)
    requires Consistent(t) && (forall p | p in seen.places :: p.key == key) && Undisturbed(t, key, seen)
    ensures Consistent(CommitDelete(t, key, seen))
    ensures Meaning(CommitDelete(t, key, seen)) == Meaning(t) - {key}
  {
    hide Places;
    var t' := CommitDelete(t, key, seen);
    if key in t.markers {
      forall p | p in t'.copies ensures p.key in t'.markers && p in t'.markers[p.key].places {
        assert p in t.copies;
      }
      forall k, p | k in t'.markers && p in t'.markers[k].places
        ensures p in t'.copies && t'.copies[p] == t'.markers[k].fingerprint
      {
        assert k in t.markers && p in t.markers[k].places;
        PlacedUnderItsKey(t, k, p);
      }
    }
  }

  /**
   A delete reads the marker and then commits. Whatever happened in between, the table stays consistent exactly
   when the copies recorded now are among those recorded then.
   */
  lemma DeleteKeepsConsistentIff(t: Table, key: string, seen: Marker)
    requires Consistent(t) && forall p | p in seen.places :: p.key == key
    ensures Consistent(CommitDelete(t, key, seen)) <==> Undisturbed(t, key, seen)
    ensures Undisturbed(t, key, seen) ==> Meaning(CommitDelete(t, key, seen)) == Meaning(t) - {key}
  {
    hide Places;
    var t' := CommitDelete(t, key, seen);
    if Undisturbed(t, key, seen) {
      UndisturbedDelete(t, key, seen);
    } else {
      var p :| p in t.markers[key].places && p !in seen.places;
      PlacedUnderItsKey(t, key, p);
      assert p in t'.copies && p.key !in t'.markers;
    }
  }

  /** The race: key "k" is deleted and inserted for another job between a delete's read and its commit. */
  lemma RacingDeleteOrphansACopy(at: Time)
    ensures var a := Event("e", "k", "t", "j1", "", "", "", at, map[]);
      var b := a.(jobID := "j2");
      var t := CommitInsert(NO_TABLE, a);
      var seen := t.markers["k"];
      var t' := CommitDelete(CommitInsert(CommitDelete(t, "k", seen), b), "k", seen);
      && t'.markers == map[] && CopyKey("j2", at, "k") in t'.copies
      && !CanInsert(t', b)
  {
    var a := Event("e", "k", "t", "j1", "", "", "", at, map[]);
    var b := a.(jobID := "j2");
    SomeAggregate(a);
    SomeAggregate(b);
    assert Aggregates(a) == {"j1"} && Aggregates(b) == {"j2"};
    var t := CommitInsert(NO_TABLE, a);
    var pa, pb := CopyKey("j1", at, "k"), CopyKey("j2", at, "k");
    assert Places(a) == {pa} && Places(b) == {pb};
    var t1 := CommitDelete(t, "k", t.markers["k"]);
    assert t1.copies == map[];
    var t2 := CommitInsert(t1, b);
    var t3 := CommitDelete(t2, "k", t.markers["k"]);
    assert pb in t2.copies;
    assert pb in t3.copies;
  }

  /** The verdict of InsertLifecycleEvent on a table that means `events`. */
  function Verdict(events: Events, e: Event): Result<bool, Error> {
    if e.key == "" || e.kind == "" then Err(InvalidRecord)
    else if e.key !in events then Ok(true)
    else if events[e.key] == e then Ok(false) else Err(EventConflict)
  }

  /** It is the memory repository's for every dated event with a key of its own, empty payload values apart. */
  lemma InsertAgreesWithMemory(events: Events, v: Event, now: Time)
    requires v.key != "" && v.occurredAt != NO_TIME && forall k | k in events :: "" !in events[k].data.Values
    ensures Verdict(events, Prepared(v, now)) == Inserted(events, v)
    ensures Inserted(events, v) == Ok(true) ==> AfterInsert(events, v) == events[v.key := Prepared(v, now)]
  {
    if v.key in events {
      MapsEqualIsEquality(events[v.key].data, v.data);
      var stored := events[v.key];
      assert stored == stored.(data := map[]).(data := stored.data) && v == v.(data := map[]).(data := v.data);
    }
  }

  /** How an insert ends whose read, transaction and second read may see three different tables. */
  datatype Answer = Added | Replayed | Invalid | Conflict | Cancelled

  function InsertAnswer(first: Option<Marker>, atCommit: Table, again: Option<Marker>, e: Event): Answer {
    if e.key == "" || e.kind == "" then Invalid
    else if first.Some? then if first.value.fingerprint == e then Replayed else Conflict
    else if CanInsert(atCommit, e) then Added
    else if again.Some? then if again.value.fingerprint == e then Replayed else Conflict
    else Cancelled
  }

  /**
   Whatever other writers do in between, an insert reports an addition exactly when it made one, a replay or a
   conflict only of an event that was stored at one of its reads, and is cancelled only by a key that came and went.
   */
  lemma InterruptedInsert(atRead: Table, atCommit: Table, atSecond: Table, e: Event)
    requires Consistent(atRead) && Consistent(atCommit) && Consistent(atSecond) && e.key != "" && e.kind != ""
    ensures var k := e.key;
      var a := InsertAnswer(Get(atRead.markers, k), atCommit, Get(atSecond.markers, k), e);
      var before, after := Get(Meaning(atRead), k), Get(Meaning(atSecond), k);
      && (a == Added <==> k !in atRead.markers && k !in atCommit.markers)
      && (a == Replayed ==> before == Some(e) || after == Some(e))
      && (a == Conflict ==> (before.Some? && before.value != e) || (after.Some? && after.value != e))
      && (a == Cancelled <==> k !in atRead.markers && k in atCommit.markers && k !in atSecond.markers)
  {
    CanInsertIffUnmarked(atCommit, e);
  }

  // ---------------------------------------------------------------- all interleavings

  /** Deletes that have read a marker and not yet committed. */
  datatype System = System(table: Table, deleting: map<string, (string, Marker)>)

  /** An insert acts at its transaction, or at its first read when that already finds the key. */
  datatype Action = Insert(event: Event, now: Time) | ReadMarker(who: string, key: string) | Commit(who: string)

  function Attempted(t: Table, v: Event, now: Time): Table {
    var e := Prepared(v, now);
    if e.key == "" || e.kind == "" then t else CommitInsert(t, e)
  }

  function Act(s: System, a: Action): System {
    match a
    case Insert(v, now) => s.(table := Attempted(s.table, v, now))
    case ReadMarker(who, key) =>
      if key in s.table.markers then s.(deleting := s.deleting[who := (key, s.table.markers[key])]) else s
    case Commit(who) =>
      if who !in s.deleting then s
      else System(CommitDelete(s.table, s.deleting[who].0, s.deleting[who].1), s.deleting - {who})
  }

  function Run(actions: seq<Action>): System {
    if actions == [] then System(NO_TABLE, map[]) else Act(Run(actions[..|actions| - 1]), actions[|actions| - 1])
  }

  /** The call of the memory repository that an action is; reading a marker is none. */
  function CallOf(s: System, a: Action): Option<EventCall> {
    match a
    case Insert(v, _) => Some(EventCall.Insert(v))
    case ReadMarker(_, _) => None
    case Commit(who) => if who in s.deleting then Some(EventCall.Delete(s.deleting[who].0)) else None
  }

  function Calls(actions: seq<Action>): seq<EventCall> {
    if actions == [] then []
    else
      var n := |actions| - 1;
      var call := CallOf(Run(actions[..n]), actions[n]);
      Calls(actions[..n]) + if call.Some? then [call.value] else []
  }

  /** What the memory repository holds after the same calls. */
  function InMemory(actions: seq<Action>): Events {
    AfterCalls(map[], Calls(actions))
  }

  predicate Race(s: System, a: Action) {
    a.Commit? && a.who in s.deleting && !Undisturbed(s.table, s.deleting[a.who].0, s.deleting[a.who].1)
  }

  ghost predicate Reads(s: System) {
    forall who, p | who in s.deleting && p in s.deleting[who].1.places :: p.key == s.deleting[who].0
  }

  /** One insert does to the table's meaning what it does in memory exactly if the event is dated or is not added. */
  lemma InsertMeansMemoryIff(t: Table, v: Event, now: Time)
    requires Consistent(t) && now != NO_TIME
    ensures Consistent(Attempted(t, v, now))
    ensures Meaning(Attempted(t, v, now)) == AfterInsert(Meaning(t), v)
      <==> v.occurredAt != NO_TIME || Inserted(Meaning(t), v) != Ok(true)
  {
    hide Consistent, Places;
    var e := Prepared(v, now);
    InsertKeepsConsistent(t, e);
    if Inserted(Meaning(t), v) == Ok(true) {
      assert Meaning(Attempted(t, v, now))[e.key] == e;
      assert AfterInsert(Meaning(t), v)[e.key].occurredAt == v.occurredAt;
    }
  }

  ghost predicate Fair(actions: seq<Action>) {
    forall i | 0 <= i < |actions| ::
      && !Race(Run(actions[..i]), actions[i])
      && (actions[i].Insert? ==> actions[i].event.occurredAt != NO_TIME && actions[i].now != NO_TIME)
  }

  /** Over every interleaving of dated inserts without such a race the table means what the memory repository holds. */
  lemma {:induction false} RunsRefineMemory(actions: seq<Action>)
    requires Fair(actions)
    ensures var s := Run(actions); Consistent(s.table) && Reads(s) && Meaning(s.table) == InMemory(actions)
  {
    if actions == [] {
      assert Meaning(NO_TABLE) == map[];
    } else {
      hide Consistent, Places, Aggregates, AfterInsert, Act, CallOf, Meaning, Reads;
      var n := |actions| - 1;
      assert forall i | 0 <= i < n :: actions[..n][..i] == actions[..i];
      RunsRefineMemory(actions[..n]);
      StepRefines(Run(actions[..n]), actions[n]);
      MemoryStep(actions);
    }
  }

  lemma MemoryStep(actions: seq<Action>)
    requires actions != []
    ensures var n := |actions| - 1;
      InMemory(actions) == After(InMemory(actions[..n]), CallOf(Run(actions[..n]), actions[n]))
  {
    var n := |actions| - 1;
    var before, call := Calls(actions[..n]), CallOf(Run(actions[..n]), actions[n]);
    if call.Some? {
      assert (before + [call.value])[..|before|] == before;
    } else {
      assert before + [] == before;
    }
  }

  function After(events: Events, call: Option<EventCall>): Events {
    if call.None? then events
    else match call.value case Insert(v) => AfterInsert(events, v) case Delete(k) => events - {k}
  }

  lemma StepRefines(s: System, a: Action)
    requires Consistent(s.table) && Reads(s) && !Race(s, a)
    requires a.Insert? ==> a.event.occurredAt != NO_TIME && a.now != NO_TIME
    ensures Consistent(Act(s, a).table) && Reads(Act(s, a))
    ensures Meaning(Act(s, a).table) == After(Meaning(s.table), CallOf(s, a))
  {
    match a
    case Insert(v, now) => InsertMeansMemoryIff(s.table, v, now);
    case ReadMarker(_, key) =>
      if key in s.table.markers {
        assert s.table.markers[key].places == Places(s.table.markers[key].fingerprint);
      }
    case Commit(who) =>
      if who in s.deleting {
        DeleteKeepsConsistentIff(s.table, s.deleting[who].0, s.deleting[who].1);
      }
  }

  /** End to end: after any such run both repositories list the same events in the same order. */
  lemma RunsListAlike(actions: seq<Action>, aggregate: string, since: Time, listed: seq<Event>, inMemory: seq<Event>)
    requires Fair(actions)
    requires IsEventListing(Meaning(Run(actions).table), aggregate, since, listed)
    requires IsEventListing(InMemory(actions), aggregate, since, inMemory)
    ensures listed == inMemory
  {
    RunsRefineMemory(actions);
    KeyedMeaning(Run(actions).table);
    hide Consistent, IsEventListing, Fair;
    EventListingUnique(InMemory(actions), aggregate, since, listed, inMemory);
  }

  lemma KeyedMeaning(t: Table)
    requires Consistent(t)
    ensures forall k | k in Meaning(t) :: Meaning(t)[k].key == k
  {
  }

  // ---------------------------------------------------------------- the repository's calls

  /** Items a query of one aggregate, or of the event index, must return; each copy is one item. */
  ghost predicate Answers(t: Table, aggregate: string, found: seq<Event>) {
    forall e :: e in found <==>
      exists p :: p in t.copies && t.copies[p] == e && (aggregate == "" || p.aggregate == aggregate)
  }

  lemma WantedMeansPlaced(t: Table, aggregate: string, v: Event)
    requires Consistent(t) && aggregate != ""
    ensures (exists p :: p in t.copies && t.copies[p] == v && p.aggregate == aggregate)
      <==> (v.key in t.markers && t.markers[v.key].fingerprint == v && aggregate in {v.jobID, v.leaseID, v.runnerID})
  {
    if v.key in t.markers && t.markers[v.key].fingerprint == v && aggregate in {v.jobID, v.leaseID, v.runnerID} {
      assert aggregate in Aggregates(v);
      assert CopyKey(aggregate, v.occurredAt, v.key) in t.markers[v.key].places;
    }
  }

  lemma StoredMeansPlaced(t: Table, v: Event)
    requires Consistent(t)
    ensures (exists p :: p in t.copies && t.copies[p] == v) <==>
      (v.key in t.markers && t.markers[v.key].fingerprint == v)
  {
    if v.key in t.markers && t.markers[v.key].fingerprint == v {
      SomeAggregate(v);
      var a :| a in Aggregates(v);
      var p := CopyKey(a, v.occurredAt, v.key);
      assert p in t.markers[v.key].places;
      assert p in t.copies && t.copies[p] == v;
    }
    if p :| p in t.copies && t.copies[p] == v {
      assert p in t.markers[p.key].places;
      assert t.copies[p] == t.markers[p.key].fingerprint;
    }
  }

  /** The items answered are those of the wanted events. */
  lemma AnswersMeanWanted(t: Table, aggregate: string, since: Time, found: seq<Event>, v: Event)
    requires Consistent(t) && Answers(t, aggregate, found)
    ensures v in found && (since == NO_TIME || !(v.occurredAt < since))
      <==> v.key in Meaning(t) && Meaning(t)[v.key] == v && WantedEvent(v, aggregate, since)
  {
    if aggregate == "" {
      StoredMeansPlaced(t, v);
    } else {
      WantedMeansPlaced(t, aggregate, v);
    }
  }

  class Repository {
    var markers: map<string, Marker>
    var copies: map<CopyKey, Event>

    ghost function Contents(): Table
      reads this
    {
      Table(markers, copies)
    }

    constructor ()
      ensures Contents() == NO_TABLE
    {
      markers, copies := map[], map[];
    }

    /** An insert that nobody interrupts between its read and its transaction. */
    method InsertLifecycleEvent(v: Event, now: Time) returns (r: Result<bool, Error>)
      requires Consistent(Contents()) && now != NO_TIME
      modifies this
      ensures Consistent(Contents())
      ensures var e := Prepared(v, now);
        Contents() == if r == Ok(true) then CommitInsert(old(Contents()), e) else old(Contents())
      ensures r == Verdict(Meaning(old(Contents())), Prepared(v, now))
    {
      var e := Prepared(v, now);
      hide Consistent, Aggregates, Places;
      InsertKeepsConsistent(Contents(), e);
      if e.key == "" || v.kind == "" {
        return Err(InvalidRecord);
      }
      if e.key in markers {
        if markers[e.key].fingerprint == e {
          return Ok(false);
        }
        return Err(EventConflict);
      }
      var ids := AggregateIDs(e);
      var written := WriteCopies(e, ids);
      markers, copies := markers[e.key := Marker(e, written.Keys)], copies + written;
      r := Ok(true);
    }

    /** The puts of one insert, one per aggregate. */
    static method WriteCopies(e: Event, ids: seq<string>) returns (written: map<CopyKey, Event>)
      requires multiset(ids) == multiset(Aggregates(e))
      ensures written == (map p | p in Places(e) :: e) && written.Keys == Places(e)
    {
      written := map[];
      for i := 0 to |ids|
        invariant forall p :: p in written <==> p.at == e.occurredAt && p.key == e.key && p.aggregate in ids[..i]
        invariant forall p | p in written :: written[p] == e
      {
        written := written[CopyKey(ids[i], e.occurredAt, e.key) := e];
      }
      assert ids[..|ids|] == ids;
      assert forall a :: a in ids <==> a in multiset(ids);
      assert written == map p | p in Places(e) :: e;
    }

    method DeleteLifecycleEvent(key: string)
      requires Consistent(Contents())
      modifies this
      ensures Consistent(Contents()) && Meaning(Contents()) == Meaning(old(Contents())) - {key}
    {
      if key !in markers {
        assert Meaning(Contents()) - {key} == Meaning(Contents());
        return;
      }
      var seen := markers[key];
      DeleteKeepsConsistentIff(Contents(), key, seen);
      markers, copies := markers - {key}, copies - seen.places;
    }

    /** The pages of a query, de-duplicated by key and sorted: exactly the memory repository's listing. */
    method ListLifecycleEvents(aggregate: string, since: Time, pages: seq<seq<Event>>) returns (out: seq<Event>)
      requires Consistent(Contents()) && Answers(Contents(), aggregate, Flatten(pages))
      ensures IsEventListing(Meaning(Contents()), aggregate, since, out)
    {
      hide Consistent, Answers, Meaning, WantedEvent;
      var raw := ReadPages(pages);
      var found := FirstOfEach(raw, since);
      ghost var events := Meaning(Contents());
      ghost var wanted := Kept(events, v => WantedEvent(v, aggregate, since), events.Keys);
      FoundIsWanted(Contents(), aggregate, since, raw, found, wanted);
      out := Sort(ByTime, found);
      SortKeeps(ByTime, found);
      ByTimeStrictTotal(multiset(found));
      SortOrders(ByTime, found);
    }

    /** The items not before `since`, the first of each idempotency key. */
    static method FirstOfEach(raw: seq<Event>, since: Time) returns (found: seq<Event>)
      ensures OnePerKey(found) && forall x | x in found :: x in raw && NotBefore(x, since)
      ensures forall x | x in raw && NotBefore(x, since) :: x.key in KeysOf(found)
    {
      hide OnePerKey, KeysOf, NotBefore;
      var seen: set<string> := {};
      found := [];
      NoneFound();
      for i := 0 to |raw|
        invariant seen == KeysOf(found) && OnePerKey(found)
        invariant forall x | x in found :: x in raw && NotBefore(x, since)
        invariant forall n | 0 <= n < i && NotBefore(raw[n], since) :: raw[n].key in seen
      {
        var v := raw[i];
        if NotBefore(v, since) && v.key !in seen {
          OneMoreFound(found, v);
          seen := seen + {v.key};
          found := found + [v];
        }
      }
    }
  }

  predicate NotBefore(v: Event, since: Time) {
    since == NO_TIME || !(v.occurredAt < since)
  }

  ghost function KeysOf(s: seq<Event>): set<string> {
    set x | x in s :: x.key
  }

  ghost predicate OnePerKey(s: seq<Event>) {
    forall j, k | 0 <= j < k < |s| :: s[j].key != s[k].key
  }

  lemma NoneFound()
    ensures KeysOf([]) == {} && OnePerKey([])
  {
  }

  lemma OneMoreFound(found: seq<Event>, v: Event)
    requires OnePerKey(found) && v.key !in KeysOf(found)
    ensures OnePerKey(found + [v]) && KeysOf(found + [v]) == KeysOf(found) + {v.key}
  {
    assert v in found + [v];
    assert forall j | 0 <= j < |found| :: found[j].key in KeysOf(found);
  }

  lemma FoundIsWanted(t: Table, aggregate: string, since: Time, raw: seq<Event>, found: seq<Event>, wanted: set<Event>)
    requires Consistent(t) && Answers(t, aggregate, raw) && OnePerKey(found)
    requires forall x | x in found :: x in raw && NotBefore(x, since)
    requires forall x | x in raw && NotBefore(x, since) :: x.key in KeysOf(found)
    requires wanted == Kept(Meaning(t), v => WantedEvent(v, aggregate, since), Meaning(t).Keys)
    ensures multiset(found) == multiset(wanted)
    ensures forall x, y | x in multiset(found) && y in multiset(found) && x.key == y.key :: x == y
  {
    var events := Meaning(t);
    assert forall k | k in events :: events[k].key == k;
    forall v ensures v in found <==> v in wanted {
      AnswersMeanWanted(t, aggregate, since, raw, v);
      if v in wanted {
        assert v in raw;
        var y :| y in found && y.key == v.key;
        AnswersMeanWanted(t, aggregate, since, raw, y);
      }
    }
    DistinctBag(found, wanted);
  }
}
