/**
 Leadership leases with fencing tokens (controller/internal/coordination/memory.go), and what they give to the
 capacity ledger they fence. Each operation of the store holds its mutex, so it is one atomic step.
 */
module Coordination {
  import opened Common
  import Capacity

  datatype Lease = Lease(key: string, owner: string, token: nat, expiresAt: Time)

  datatype Entry = Entry(lease: Lease, next: nat)

  type Items = map<string, Entry>

  datatype Error = LeaseHeld | NotFound | NotOwner | StaleToken

  /** One call and the clock reading it works with. */
  datatype Op =
    | Acquire(now: Time, key: string, owner: string, ttl: int)
    | Renew(now: Time, lease: Lease, ttl: int)
    | Release(now: Time, lease: Lease)

  function KeyOf(op: Op): string {
    if op.Acquire? then op.key else op.lease.key
  }

  predicate Held(items: Items, key: string, now: Time) {
    key in items && now < items[key].lease.expiresAt
  }

  /** The lease handed back; a release that is accepted answers with the lease it was given. */
  function Answer(items: Items, op: Op): Result<Lease, Error> {
    match op
    case Acquire(now, key, owner, ttl) =>
      if Held(items, key, now) then
        if items[key].lease.owner == owner then Ok(items[key].lease) else Err(LeaseHeld)
      else Ok(Lease(key, owner, (if key in items then items[key].next else 0) + 1, now + ttl))
    case Renew(now, lease, ttl) =>
      if lease.key !in items then Err(NotFound)
      else if !Held(items, lease.key, now) then Err(NotOwner)
      else if items[lease.key].lease.token != lease.token then Err(StaleToken)
      else if items[lease.key].lease.owner != lease.owner then Err(NotOwner)
      else Ok(items[lease.key].lease.(expiresAt := now + ttl))
    case Release(_, lease) =>
      if lease.key !in items then Ok(lease)
      else if items[lease.key].lease.token != lease.token then Err(StaleToken)
      else if items[lease.key].lease.owner != lease.owner then Err(NotOwner)
      else Ok(lease)
  }

  function After(items: Items, op: Op): Items {
    match (op, Answer(items, op))
    case (_, Err(_)) => items
    case (Acquire(now, key, _, _), Ok(lease)) =>
      if Held(items, key, now) then items else items[key := Entry(lease, lease.token)]
    case (Renew(_, mine, _), Ok(lease)) => items[mine.key := Entry(lease, items[mine.key].next)]
    case (Release(_, _), Ok(lease)) => items - {lease.key}
  }

  function Run(items: Items, ops: seq<Op>): Items {
    if ops == [] then items else After(Run(items, ops[..|ops| - 1]), ops[|ops| - 1])
  }

  class MemoryStore {
    var items: Items

    constructor ()
      ensures items == map[]
    {
      items := map[];
    }

    method Acquire(now: Time, key: string, owner: string, ttl: int) returns (r: Result<Lease, Error>)
      modifies this
      ensures r == Answer(old(items), Op.Acquire(now, key, owner, ttl))
      ensures items == After(old(items), Op.Acquire(now, key, owner, ttl))
    {
      var entry := Entry(Lease("", "", 0, NO_TIME), 0);
      if key in items {
        entry := items[key];
        if now < entry.lease.expiresAt {
          if entry.lease.owner == owner {
            return Ok(entry.lease);
          }
          return Err(LeaseHeld);
        }
      }
      entry := entry.(next := entry.next + 1);
      entry := entry.(lease := Lease(key, owner, entry.next, now + ttl));
      items := items[key := entry];
      r := Ok(entry.lease);
    }

    method Renew(now: Time, lease: Lease, ttl: int) returns (r: Result<Lease, Error>)
      modifies this
      ensures r == Answer(old(items), Op.Renew(now, lease, ttl))
      ensures items == After(old(items), Op.Renew(now, lease, ttl))
    {
      if lease.key !in items {
        return Err(NotFound);
      }
      var entry := items[lease.key];
      if !(now < entry.lease.expiresAt) {
        return Err(NotOwner);
      }
      if entry.lease.token != lease.token {
        return Err(StaleToken);
      }
      if entry.lease.owner != lease.owner {
        return Err(NotOwner);
      }
      entry := entry.(lease := entry.lease.(expiresAt := now + ttl));
      items := items[lease.key := entry];
      r := Ok(entry.lease);
    }

    method Release(now: Time, lease: Lease) returns (err: Option<Error>)
      modifies this
      ensures err == match Answer(old(items), Op.Release(now, lease)) { case Ok(_) => None case Err(e) => Some(e) }
      ensures items == After(old(items), Op.Release(now, lease))
    {
      if lease.key !in items {
        assert items - {lease.key} == items;
        return None;
      }
      if items[lease.key].lease.token != lease.token {
        return Some(StaleToken);
      }
      if items[lease.key].lease.owner != lease.owner {
        return Some(NotOwner);
      }
      items := items - {lease.key};
      err := None;
    }
  }

  // ---------------------------------------------------------------- what every run keeps

  /** Entries name their own key, and the counter is the token of the last lease granted. */
  predicate WellKept(items: Items) {
    forall k | k in items :: items[k].lease.key == k && items[k].next == items[k].lease.token >= 1
  }

  lemma {:induction false} WellKeptAlong(items: Items, ops: seq<Op>)
    requires WellKept(items)
    ensures WellKept(Run(items, ops))
  {
    if ops == [] {
    } else {
      WellKeptAlong(items, ops[..|ops| - 1]);
    }
  }

  /** Every store that starts empty is well kept, whatever is called. */
  lemma RunsKeepWell(ops: seq<Op>)
    ensures WellKept(Run(map[], ops))
  {
    WellKeptAlong(map[], ops);
  }

  /** The highest token the store remembers for a key. */
  function Floor(items: Items, key: string): nat {
    if key in items then items[key].next else 0
  }

  /** This call takes the key away from nobody and gives it to `lease.owner` anew. */
  predicate Grants(items: Items, op: Op) {
    op.Acquire? && !Held(items, op.key, op.now)
  }

  predicate Frees(items: Items, op: Op, key: string) {
    op.Release? && op.lease.key == key && key in items && Answer(items, op).Ok?
  }

  /** One call: a new grant comes only once the stored lease has run out, and with a strictly larger token. */
  lemma GrantsFollowExpiry(items: Items, op: Op)
    requires WellKept(items) && Grants(items, op)
    ensures var lease := Answer(items, op).value;
      && lease.owner == op.owner && lease.token > Floor(items, op.key)
      && After(items, op)[op.key] == Entry(lease, lease.token)
      && (op.key in items ==> items[op.key].lease.expiresAt <= op.now)
  {
  }

  function Caller(op: Op): string {
    if op.Acquire? then op.owner else op.lease.owner
  }

  /** Whoever is answered with a lease is its owner and the stored holder; no call touches another key. */
  lemma OnlyTheHolderIsServed(items: Items, op: Op)
    requires WellKept(items)
    ensures !op.Release? && Answer(items, op).Ok? ==>
      var lease := Answer(items, op).value;
      && lease.owner == Caller(op) && lease.key == KeyOf(op)
      && lease.key in After(items, op) && After(items, op)[lease.key].lease == lease
    ensures op.Acquire? ==> (Answer(items, op).Ok? <==>
      !Held(items, op.key, op.now) || items[op.key].lease.owner == op.owner)
    ensures forall k | k != KeyOf(op) :: Get(After(items, op), k) == Get(items, k)
    ensures Answer(items, op).Err? ==> After(items, op) == items
  {
  }

  /** The counter of a key falls exactly when its lease is released: the next grant starts again at 1. */
  lemma FloorFallsIffReleased(items: Items, op: Op, key: string)
    requires WellKept(items)
    ensures Floor(After(items, op), key) < Floor(items, key) <==> Frees(items, op, key)
    ensures Frees(items, op, key) ==> Floor(After(items, op), key) == 0
  {
  }

  /** A renewal is accepted exactly from the holder of the stored token while it still holds the key. */
  lemma RenewalAcceptedIff(items: Items, op: Op)
    requires op.Renew?
    ensures Answer(items, op).Ok? <==>
      && op.lease.key in items && op.now < items[op.lease.key].lease.expiresAt
      && op.lease.token == items[op.lease.key].lease.token && op.lease.owner == items[op.lease.key].lease.owner
    ensures Answer(items, op) == Err(NotFound) <==> op.lease.key !in items
    ensures Answer(items, op) == Err(StaleToken) <==>
      && op.lease.key in items && op.now < items[op.lease.key].lease.expiresAt
      && op.lease.token != items[op.lease.key].lease.token
  {
  }

  /** A release deletes the entry exactly for the stored owner and token, expired or not; an unknown key is no error. */
  lemma ReleaseDeletesIff(items: Items, op: Op)
    requires WellKept(items) && op.Release? && op.lease.key in items
    ensures var stored := items[op.lease.key].lease;
      && (op.lease.key !in After(items, op) <==> op.lease.owner == stored.owner && op.lease.token == stored.token)
      && (Answer(items, op).Ok? <==> op.lease.key !in After(items, op))
      && (Answer(items, op) == Err(StaleToken) <==> op.lease.token != stored.token)
    ensures After(items - {op.lease.key}, op) == items - {op.lease.key} && Answer(items - {op.lease.key}, op).Ok?
  {
    assert items - {op.lease.key} - {op.lease.key} == items - {op.lease.key};
  }

  /** A renewal moves the expiry to its time plus its ttl, later or earlier: exactly until then others are refused. */
  lemma RenewalHoldsUntil(items: Items, op: Op, other: string, later: Time, ttl: int)
    requires WellKept(items) && op.Renew? && Answer(items, op).Ok? && other != op.lease.owner
    ensures Answer(After(items, op), Acquire(later, op.lease.key, other, ttl)).Err? <==> later < op.now + op.ttl
    ensures Answer(After(items, op), Acquire(later, op.lease.key, other, ttl)).Err? ==>
      Answer(After(items, op), Acquire(later, op.lease.key, other, ttl)) == Err(LeaseHeld)
  {
  }

  /** So does a new grant; its holder asking again meanwhile gets the same lease and no more time. */
  lemma GrantHoldsUntil(items: Items, op: Op, other: string, later: Time, ttl: int)
    requires WellKept(items) && Grants(items, op) && other != op.owner
    ensures Answer(After(items, op), Acquire(later, op.key, other, ttl)).Err? <==> later < op.now + op.ttl
    ensures later < op.now + op.ttl ==>
      && Answer(After(items, op), Acquire(later, op.key, op.owner, ttl)) == Answer(items, op)
      && After(After(items, op), Acquire(later, op.key, op.owner, ttl)) == After(items, op)
  {
  }

  // ---------------------------------------------------------------- mutual exclusion

  predicate Monotone(ops: seq<Op>) {
    forall i, j | 0 <= i < j < |ops| :: ops[i].now <= ops[j].now
  }

  /** A renewal of this very lease to a time before the one it was promised for. */
  predicate CutsShort(op: Op, lease: Lease) {
    && op.Renew? && op.lease.key == lease.key && op.lease.token == lease.token && op.lease.owner == lease.owner
    && op.now + op.ttl < lease.expiresAt
  }

  /** The key is never given back and this lease is not renewed for less than it was promised for. */
  ghost predicate HoldsOut(items: Items, ops: seq<Op>, lease: Lease) {
    forall i | 0 <= i < |ops| :: !Frees(Run(items, ops[..i]), ops[i], lease.key) && !CutsShort(ops[i], lease)
  }

  ghost predicate HandedOut(items: Items, ops: seq<Op>, i: nat, lease: Lease) {
    i < |ops| && !ops[i].Release? && Answer(Run(items, ops[..i]), ops[i]) == Ok(lease)
  }

  predicate StillPromised(items: Items, lease: Lease) {
    && lease.key in items && items[lease.key].lease.owner == lease.owner && items[lease.key].lease.token == lease.token
    && items[lease.key].lease.expiresAt >= lease.expiresAt
  }

  /** One call of anybody before the promised time breaks the promise exactly by releasing or cutting short. */
  lemma PromiseBreaksIff(items: Items, op: Op, lease: Lease)
    requires WellKept(items) && StillPromised(items, lease) && op.now < lease.expiresAt
    ensures !StillPromised(After(items, op), lease) <==> Frees(items, op, lease.key) || CutsShort(op, lease)
  {
  }

  /** And once it was cut short, somebody else is granted the key inside the promised time. */
  lemma CutShortIsTaken(items: Items, op: Op, lease: Lease, later: Time, other: string, ttl: int)
    requires WellKept(items) && StillPromised(items, lease) && op.now < lease.expiresAt && CutsShort(op, lease)
    requires op.now + op.ttl <= later < lease.expiresAt && other != lease.owner
    ensures var taken := Answer(After(items, op), Acquire(later, lease.key, other, ttl));
      taken == Ok(Lease(lease.key, other, lease.token + 1, later + ttl))
  {
  }

  lemma PromiseStarts(items: Items, op: Op, lease: Lease)
    requires WellKept(items) && !op.Release? && Answer(items, op) == Ok(lease)
    ensures StillPromised(After(items, op), lease)
  {
  }

  /** A lease stays with its owner, under its token, until the time it was promised for. */
  lemma {:induction false} PromiseKept(items: Items, ops: seq<Op>, i: nat, lease: Lease, j: nat)
    requires WellKept(items) && Monotone(ops) && HoldsOut(items, ops, lease)
    requires HandedOut(items, ops, i, lease) && i < j <= |ops| && ops[j - 1].now < lease.expiresAt
    ensures StillPromised(Run(items, ops[..j]), lease)
    decreases j
  {
    hide After, Answer, WellKept, StillPromised, Frees, CutsShort;
    WellKeptAlong(items, ops[..j - 1]);
    assert ops[..j][..j - 1] == ops[..j - 1];
    if i == j - 1 {
      PromiseStarts(Run(items, ops[..i]), ops[i], lease);
    } else {
      PromiseKept(items, ops, i, lease, j - 1);
      PromiseBreaksIff(Run(items, ops[..j - 1]), ops[j - 1], lease);
    }
  }

  /** While a lease handed to one owner has not run out, nobody else is handed the key. */
  lemma MutualExclusion(items: Items, ops: seq<Op>, key: string, i: nat, j: nat, mine: Lease, theirs: Lease)
    requires WellKept(items) && Monotone(ops) && HoldsOut(items, ops, mine)
    requires HandedOut(items, ops, i, mine) && HandedOut(items, ops, j, theirs) && i < j
    requires mine.key == theirs.key == key && mine.owner != theirs.owner
    ensures mine.expiresAt <= ops[j].now && mine.token < theirs.token
  {
    TokensGrow(items, ops, key, i, j, mine, theirs);
    WellKeptAlong(items, ops[..j]);
    if ops[j].now < mine.expiresAt {
      PromiseKept(items, ops, i, mine, j);
    }
  }

  lemma HandedOutIsStored(items: Items, op: Op, lease: Lease)
    requires WellKept(items) && !op.Release? && Answer(items, op) == Ok(lease)
    ensures lease.key in After(items, op) && After(items, op)[lease.key].lease == lease
  {
  }

  lemma OtherKeysStay(items: Items, op: Op, key: string)
    requires WellKept(items) && KeyOf(op) != key
    ensures Get(After(items, op), key) == Get(items, key)
  {
  }

  lemma {:induction false} LeaseStays(items: Items, ops: seq<Op>, i: nat, lease: Lease, j: nat)
    requires WellKept(items) && HandedOut(items, ops, i, lease) && i < j <= |ops|
    requires forall n | i < n < j :: KeyOf(ops[n]) != lease.key
    ensures var now := Run(items, ops[..j]); lease.key in now && now[lease.key].lease == lease
    decreases j
  {
    hide After, Answer, WellKept;
    WellKeptAlong(items, ops[..j - 1]);
    assert ops[..j][..j - 1] == ops[..j - 1];
    if i == j - 1 {
      HandedOutIsStored(Run(items, ops[..i]), ops[i], lease);
    } else {
      LeaseStays(items, ops, i, lease, j - 1);
      OtherKeysStay(Run(items, ops[..j - 1]), ops[j - 1], lease.key);
    }
  }

  /**
   Over every run: until the key is called for again, the lease last handed out for it decides, and another owner is
   granted the key exactly from its expiry on.
   */
  lemma GrantedExactlyFromExpiry(items: Items, ops: seq<Op>, i: nat, lease: Lease, j: nat)
    requires WellKept(items) && HandedOut(items, ops, i, lease) && i < j < |ops|
    requires forall n | i < n < j :: KeyOf(ops[n]) != lease.key
    requires ops[j].Acquire? && ops[j].key == lease.key && ops[j].owner != lease.owner
    ensures Answer(Run(items, ops[..j]), ops[j]).Ok? <==> lease.expiresAt <= ops[j].now
  {
    LeaseStays(items, ops, i, lease, j);
  }

  predicate NotBelow(items: Items, lease: Lease) {
    && lease.key in items && items[lease.key].lease.token >= lease.token
    && (items[lease.key].lease.token == lease.token ==> items[lease.key].lease.owner == lease.owner)
  }

  lemma NotBelowSurvives(items: Items, op: Op, lease: Lease)
    requires WellKept(items) && NotBelow(items, lease) && !Frees(items, op, lease.key)
    ensures NotBelow(After(items, op), lease)
    ensures !op.Release? && Answer(items, op).Ok? && KeyOf(op) == lease.key ==>
      var later := Answer(items, op).value;
      later.token >= lease.token && (later.token == lease.token ==> later.owner == lease.owner)
  {
  }

  lemma AnswersForItsKey(items: Items, op: Op, lease: Lease)
    requires WellKept(items) && !op.Release? && Answer(items, op) == Ok(lease)
    ensures KeyOf(op) == lease.key && NotBelow(After(items, op), lease)
  {
  }

  lemma {:induction false} TokenStays(items: Items, ops: seq<Op>, key: string, i: nat, lease: Lease, j: nat)
    requires WellKept(items) && (forall n | 0 <= n < |ops| :: !Frees(Run(items, ops[..n]), ops[n], key))
    requires HandedOut(items, ops, i, lease) && lease.key == key && i < j <= |ops|
    ensures NotBelow(Run(items, ops[..j]), lease)
    decreases j
  {
    hide After, Answer, WellKept, NotBelow;
    WellKeptAlong(items, ops[..j - 1]);
    assert ops[..j][..j - 1] == ops[..j - 1];
    if i < j - 1 {
      TokenStays(items, ops, key, i, lease, j - 1);
      NotBelowSurvives(Run(items, ops[..j - 1]), ops[j - 1], lease);
    } else {
      AnswersForItsKey(Run(items, ops[..i]), ops[i], lease);
    }
  }

  /** Without releases, tokens handed out never fall, and one token never belongs to two owners. */
  lemma TokensGrow(items: Items, ops: seq<Op>, key: string, i: nat, j: nat, first: Lease, later: Lease)
    requires WellKept(items) && (forall n | 0 <= n < |ops| :: !Frees(Run(items, ops[..n]), ops[n], key))
    requires HandedOut(items, ops, i, first) && HandedOut(items, ops, j, later) && i <= j
    requires first.key == later.key == key
    ensures first.token <= later.token
    ensures first.token == later.token ==> first.owner == later.owner
  {
    hide After, Answer, WellKept, NotBelow;
    if i < j {
      TokenStays(items, ops, key, i, first, j);
      WellKeptAlong(items, ops[..j]);
      AnswersForItsKey(Run(items, ops[..j]), ops[j], later);
      NotBelowSurvives(Run(items, ops[..j]), ops[j], first);
    }
  }

  /** A renewal with a shorter time does take back what was promised. */
  lemma ShortRenewalBreaksThePromise()
    ensures var ops := [Acquire(0, "k", "a", 100), Renew(1, Lease("k", "a", 1, 100), 1), Acquire(2, "k", "b", 100)];
      && Answer(Run(map[], ops[..0]), ops[0]) == Ok(Lease("k", "a", 1, 100))
      && Answer(Run(map[], ops[..2]), ops[2]) == Ok(Lease("k", "b", 2, 102))
  {
    var ops := [Acquire(0, "k", "a", 100), Renew(1, Lease("k", "a", 1, 100), 1), Acquire(2, "k", "b", 100)];
    var s1 := After(map[], ops[0]);
    assert ops[..1] == [ops[0]] && ops[..2][..1] == ops[..1] && ops[..2][1] == ops[1];
    assert Run(map[], ops[..1]) == s1;
    assert Run(map[], ops[..2]) == After(s1, ops[1]);
  }

  // ---------------------------------------------------------------- fencing the ledger across failover

  /** One lease key and the ledger its holders write to; `granted[t - 1]` is the owner granted token t. */
  datatype System = System(items: Items, ledger: Capacity.Ledger, granted: seq<string>)

  datatype Event = Coordinate(op: Op) | Control(action: Capacity.Action)

  /** Controllers join the ledger only with a lease of `key` they were granted. */
  predicate Allowed(s: System, e: Event, key: string) {
    match e
    case Coordinate(op) => KeyOf(op) == key && !Frees(s.items, op, key)
    case Control(a) => a.Join? ==> 1 <= a.token <= |s.granted| && s.granted[a.token - 1] == a.owner
  }

  function Next(s: System, e: Event): System {
    match e
    case Coordinate(op) =>
      s.(items := After(s.items, op), granted := if Grants(s.items, op) then s.granted + [op.owner] else s.granted)
    case Control(a) => s.(ledger := Capacity.Step(s.ledger, a))
  }

  /** The ledger trusts a granted token and its owner; the store holds the last one granted. */
  ghost predicate Fencing(s: System, key: string) {
    && WellKept(s.items) && Floor(s.items, key) == |s.granted|
    && (key in s.items ==> s.granted != [] && s.items[key].lease.owner == s.granted[|s.granted| - 1])
    && s.ledger.token <= |s.granted|
    && (s.ledger.token > 0 ==> s.ledger.owner == s.granted[s.ledger.token - 1])
  }

  function Through(s: System, events: seq<Event>): System {
    if events == [] then s else Next(Through(s, events[..|events| - 1]), events[|events| - 1])
  }

  const START := System(map[], Capacity.EMPTY, [])

  ghost predicate Admissible(events: seq<Event>, key: string) {
    forall i | 0 <= i < |events| :: Allowed(Through(START, events[..i]), events[i], key)
  }

  lemma NextKeepsFencing(s: System, e: Event, key: string)
    requires Fencing(s, key) && Allowed(s, e, key)
    ensures Fencing(Next(s, e), key)
  {
    if e.Coordinate? {
      FloorFallsIffReleased(s.items, e.op, key);
    }
  }

  lemma {:induction false} FencingAlways(events: seq<Event>, key: string)
    requires Admissible(events, key)
    ensures Fencing(Through(START, events), key)
  {
    if events == [] {
    } else {
      var n := |events| - 1;
      assert forall i | 0 <= i < n :: events[..n][..i] == events[..i];
      FencingAlways(events[..n], key);
      assert Allowed(Through(START, events[..n]), events[n], key);
      NextKeepsFencing(Through(START, events[..n]), events[n], key);
    }
  }

  lemma HolderTakesOver(s: System, key: string, older: Capacity.Action)
    requires Fencing(s, key) && key in s.items && !Blank(s.items[key].lease.owner)
    ensures var lease := s.items[key].lease;
      var l := Capacity.Step(s.ledger, Capacity.Join(lease.owner, lease.token));
      && l.token == lease.token && l.owner == lease.owner && l.pools == s.ledger.pools && l.entries == s.ledger.entries
      && (Capacity.Fenced(older) && older.token < lease.token ==>
            Capacity.Verdict(l, older).Some? && Capacity.Step(l, older) == l)
  {
    hide Capacity.Fits, Capacity.Covers, Capacity.Take, Capacity.GiveBack, Capacity.ValidPool;
  }

  /**
   Failover works: after any admissible run the holder of the newest lease takes the ledger over by joining,
   and every controller granted an earlier token is then refused, its call leaving pools and ledger alone.
   */
  lemma NewestHolderTakesOver(events: seq<Event>, key: string, older: Capacity.Action)
    requires Admissible(events, key) && key in Through(START, events).items
    requires !Blank(Through(START, events).items[key].lease.owner)
    ensures var s := Through(START, events);
      var lease := s.items[key].lease;
      var l := Capacity.Step(s.ledger, Capacity.Join(lease.owner, lease.token));
      && l.token == lease.token && l.owner == lease.owner && l.pools == s.ledger.pools && l.entries == s.ledger.entries
      && (Capacity.Fenced(older) && older.token < lease.token ==>
            Capacity.Verdict(l, older).Some? && Capacity.Step(l, older) == l)
  {
    FencingAlways(events, key);
    HolderTakesOver(Through(START, events), key, older);
  }

  /**
   With a release the argument fails: the key starts again at token 1. In every state the next holder then takes the
   ledger over exactly if no token was ever installed, or if token 1 is installed and was its own.
   */
  lemma TakeOverAfterReleaseIff(s: System, release: Op, next: Op, key: string)
    requires Fencing(s, key) && Frees(s.items, release, key)
    requires next.Acquire? && next.key == key && !Blank(next.owner)
    ensures var items := After(s.items, release);
      && Answer(items, next) == Ok(Lease(key, next.owner, 1, next.now + next.ttl))
      && var l := Capacity.Step(s.ledger, Capacity.Join(next.owner, 1));
      (l.token == 1 && l.owner == next.owner) <==>
        (s.ledger.token == 0 || (s.ledger.token == 1 && s.ledger.owner == next.owner))
  {
  }

  /**
   Such a run: the second holder cannot take the ledger over while the first, who gave its lease back, still
   writes.
   */
  lemma ReleaseDefeatsFencing(c: Capacity.Claim, l: Capacity.Ledger)
    requires c.NonNegative() && !Blank(c.pool) && l.token == 0
    ensures var first := Lease("k", "a", 1, 10);
      var ops := [Acquire(0, "k", "a", 10), Release(1, first), Acquire(2, "k", "b", 10)];
      && Answer(Run(map[], ops[..2]), ops[2]) == Ok(Lease("k", "b", 1, 12))
      && var joined := Capacity.Step(Capacity.Step(l, Capacity.Join("a", 1)), Capacity.Join("b", 1));
      && Capacity.Verdict(joined, Capacity.ReserveFenced("b", 1, "r", c)) == Some(Capacity.StaleReplica)
      && Capacity.Verdict(joined, Capacity.ReserveFenced("a", 1, "r", c)) != Some(Capacity.StaleReplica)
  {
    var first := Lease("k", "a", 1, 10);
    var ops := [Acquire(0, "k", "a", 10), Release(1, first), Acquire(2, "k", "b", 10)];
    var s1 := After(map[], ops[0]);
    assert ops[..1] == [ops[0]] && ops[..2][..1] == ops[..1] && ops[..2][1] == ops[1];
    assert Run(map[], ops[..1]) == s1;
    assert Run(map[], ops[..2]) == After(s1, ops[1]);
    assert !IsSpace("a"[0]) && !IsSpace("b"[0]) && !IsSpace("r"[0]);
  }
}
