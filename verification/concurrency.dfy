/**
 Optimistic concurrency over whole histories: any interleaving of Create and Save calls by any number of
 writers is one sequence of atomic writes, because the repository's mutex serialises them.
 */
module OptimisticWrites {
  import opened Common
  import opened Records
  import opened Memory

  datatype Write<+B> = Create(v: Record<B>, at: Time) | Save(v: Record<B>, expected: int, at: Time) {
    /** The revision the writer believes to be current; creation believes there is none. */
    function Expected(): int {
      if Create? then 0 else expected
    }
  }

  function Outcome<B>(t: Table<B>, w: Write<B>): Result<Record<B>, Error> {
    match w
    case Create(v, at) => CreatedRow(Get(t, v.id), v, at)
    case Save(v, n, at) => SavedRow(Get(t, v.id), v, n, at)
  }

  function After<B>(t: Table<B>, ws: seq<Write<B>>): Table<B> {
    if ws == [] then t
    else var before := After(t, ws[..|ws| - 1]); Stored(before, Outcome(before, ws[|ws| - 1]))
  }

  predicate Wins<B>(t: Table<B>, ws: seq<Write<B>>, i: nat) {
    i < |ws| && Outcome(After(t, ws[..i]), ws[i]).Ok?
  }

  function Revision<B>(t: Table<B>, id: string): int {
    if id in t then t[id].revision else 0
  }

  function WinsFor<B>(t: Table<B>, ws: seq<Write<B>>, id: string): nat {
    if ws == [] then 0
    else
      var n := |ws| - 1;
      WinsFor(t, ws[..n], id) + if ws[n].v.id == id && Outcome(After(t, ws[..n]), ws[n]).Ok? then 1 else 0
  }

  /** The table stays valid and a record's revision rises by exactly one per successful write of it. */
  lemma {:induction false} RevisionCountsWins<B>(t: Table<B>, ws: seq<Write<B>>, id: string)
    requires ValidTable(t)
    ensures ValidTable(After(t, ws))
    ensures Revision(After(t, ws), id) == Revision(t, id) + WinsFor(t, ws, id)
  {
    if ws == [] {
    } else {
      RevisionCountsWins(t, ws[..|ws| - 1], id);
    }
  }

  lemma AfterSplits<B>(t: Table<B>, ws: seq<Write<B>>, i: nat)
    requires i < |ws|
    ensures After(t, ws[..i + 1]) == Stored(After(t, ws[..i]), Outcome(After(t, ws[..i]), ws[i]))
  {
    assert ws[..i + 1][..i] == ws[..i];
  }

  lemma {:induction false} RevisionsNeverFall<B>(t: Table<B>, ws: seq<Write<B>>, id: string, i: nat, j: nat)
    requires ValidTable(t) && i <= j <= |ws|
    ensures Revision(After(t, ws[..i]), id) <= Revision(After(t, ws[..j]), id)
    decreases j - i
  {
    if i < j {
      RevisionCountsWins(t, ws[..i], id);
      AfterSplits(t, ws, i);
      RevisionsNeverFall(t, ws, id, i + 1, j);
    }
  }

  /** Of two successful writes of one record the later one expected a strictly larger revision. */
  lemma WinnersExpectDifferentRevisions<B>(t: Table<B>, ws: seq<Write<B>>, i: nat, j: nat)
    requires ValidTable(t) && i < j && Wins(t, ws, i) && Wins(t, ws, j) && ws[i].v.id == ws[j].v.id
    ensures ws[i].Expected() < ws[j].Expected()
  {
    var id := ws[i].v.id;
    RevisionCountsWins(t, ws[..i], id);
    RevisionCountsWins(t, ws[..j], id);
    AfterSplits(t, ws, i);
    RevisionsNeverFall(t, ws, id, i + 1, j);
  }

  /** The record that remains is the last successful writer's, one revision above what it expected, with its time. */
  lemma {:induction false} LastWinnerRemains<B>(t: Table<B>, ws: seq<Write<B>>, i: nat)
    requires ValidTable(t) && Wins(t, ws, i)
    requires forall j | i < j < |ws| && ws[j].v.id == ws[i].v.id :: !Wins(t, ws, j)
    ensures var id := ws[i].v.id;
      id in After(t, ws) && After(t, ws)[id].data == ws[i].v.data && After(t, ws)[id].revision == ws[i].Expected() + 1
    ensures var row := After(t, ws)[ws[i].v.id];
      && (ws[i].Save? ==> row.updatedAt == ws[i].at)
      && (ws[i].Create? ==> row.updatedAt == row.createdAt == if ws[i].v.createdAt == NO_TIME then ws[i].at
        else ws[i].v.createdAt)
  {
    var n := |ws| - 1;
    var prior := ws[..n];
    if i == n {
      RevisionCountsWins(t, prior, ws[i].v.id);
    } else {
      assert prior[..i] == ws[..i];
      forall j | i < j < |prior| && prior[j].v.id == prior[i].v.id ensures !Wins(t, prior, j) {
        assert prior[..j] == ws[..j];
        assert !Wins(t, ws, j);
      }
      LastWinnerRemains(t, prior, i);
      assert ws[n].v.id == ws[i].v.id ==> !Wins(t, ws, n);
    }
  }

  /** One write changes when a record was created exactly by winning with another creation time of its own. */
  lemma CreationChangesIff<B>(t: Table<B>, w: Write<B>, id: string)
    requires ValidTable(t) && id in t
    ensures var t' := Stored(t, Outcome(t, w));
      id in t' && (t'[id].createdAt != t[id].createdAt <==>
        w.v.id == id && w.Save? && w.expected == t[id].revision && w.v.createdAt !in {NO_TIME, t[id].createdAt})
  {
  }

  /** Over every interleaving a record keeps its creation time if nobody brings along another one. */
  lemma {:induction false} CreationIsKept<B>(t: Table<B>, ws: seq<Write<B>>, id: string)
    requires ValidTable(t) && id in t
    requires forall w | w in ws && w.v.id == id :: w.v.createdAt in {NO_TIME, t[id].createdAt}
    ensures id in After(t, ws) && After(t, ws)[id].createdAt == t[id].createdAt
  {
    if ws == [] {
    } else {
      var n := |ws| - 1;
      assert ws[n] in ws;
      CreationIsKept(t, ws[..n], id);
      RevisionCountsWins(t, ws[..n], id);
      CreationChangesIff(After(t, ws[..n]), ws[n], id);
    }
  }

  // ---------------------------------------------------------------- events

  datatype EventCall = Insert(v: Event) | Delete(key: string) {
    function Key(): string {
      if Insert? then EventKey(v) else key
    }
  }

  function AfterCalls(e: Events, cs: seq<EventCall>): Events {
    if cs == [] then e
    else
      var before := AfterCalls(e, cs[..|cs| - 1]);
      match cs[|cs| - 1] case Insert(v) => AfterInsert(before, v) case Delete(k) => before - {k}
  }

  /** How often an insert under `key` reported that it added the event. */
  function Additions(e: Events, cs: seq<EventCall>, key: string): nat {
    if cs == [] then 0
    else
      var n := |cs| - 1;
      Additions(e, cs[..n], key)
      + if cs[n].Insert? && cs[n].Key() == key && Inserted(AfterCalls(e, cs[..n]), cs[n].v) == Ok(true) then 1 else 0
  }

  /** Some call tries to add a valid event under the key. */
  predicate Tries(c: EventCall, key: string) {
    c.Insert? && c.Key() == key && c.v.kind != ""
  }

  ghost predicate Tried(cs: seq<EventCall>, key: string) {
    exists c :: c in cs && Tries(c, key)
  }

  lemma TriedGrows(cs: seq<EventCall>, key: string)
    requires cs != []
    ensures Tried(cs, key) <==> Tried(cs[..|cs| - 1], key) || Tries(cs[|cs| - 1], key)
  {
    assert cs == cs[..|cs| - 1] + [cs[|cs| - 1]];
  }

  /** One call that is not a delete of the key. */
  lemma OneCall(before: Events, c: EventCall, key: string)
    requires key != "" && c != Delete(key)
    ensures var after := match c case Insert(v) => AfterInsert(before, v) case Delete(k) => before - {k};
      var added := c.Insert? && c.Key() == key && Inserted(before, c.v) == Ok(true);
      && added == (key !in before && Tries(c, key))
      && (key in after <==> key in before || added)
      && (key in before ==> after[key] == before[key])
  {
  }

  /** Between two deletes of a key exactly one valid insert adds its event, and nothing overwrites it. */
  lemma {:induction false} OneAdditionBetweenDeletes(e: Events, cs: seq<EventCall>, key: string)
    requires key != "" && Delete(key) !in cs
    ensures key in e ==> Additions(e, cs, key) == 0 && key in AfterCalls(e, cs) && AfterCalls(e, cs)[key] == e[key]
    ensures key !in e ==>
      && Additions(e, cs, key) == (if Tried(cs, key) then 1 else 0)
      && (key in AfterCalls(e, cs) <==> Tried(cs, key))
  {
    if cs == [] {
    } else {
      hide Tried, Tries, AfterInsert, Inserted;
      var n := |cs| - 1;
      assert cs[n] in cs && cs[n] != Delete(key);
      assert Delete(key) !in cs[..n];
      OneAdditionBetweenDeletes(e, cs[..n], key);
      OneCall(AfterCalls(e, cs[..n]), cs[n], key);
      TriedGrows(cs, key);
    }
  }
}
