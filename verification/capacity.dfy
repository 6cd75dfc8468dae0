/**
 Capacity pools and the fenced reservation ledger (controller/internal/capacity/capacity.go). Every method of
 the registry holds its mutex, so an interleaving of replicas is a sequence of atomic actions.
 */
module Capacity {
  import opened Common
  import opened Ordering

  datatype Ownership = CustomerOwned | Managed

  datatype Mode = CustomerFirst | ManagedFirst | CustomerOnly | ManagedOnly | OtherMode

  datatype Availability = Available | Draining | Unavailable

  /** Amounts of the four resources; as a limit, 0 means unlimited. */
  datatype Amounts = Amounts(runners: int, cpu: int, memoryGB: int, gpu: int) {
    function Plus(o: Amounts): Amounts {
      Amounts(runners + o.runners, cpu + o.cpu, memoryGB + o.memoryGB, gpu + o.gpu)
    }

    predicate NonNegative() {
      runners >= 0 && cpu >= 0 && memoryGB >= 0 && gpu >= 0
    }

    predicate Within(limit: Amounts) {
      && (limit.runners > 0 ==> runners <= limit.runners) && (limit.cpu > 0 ==> cpu <= limit.cpu)
      && (limit.memoryGB > 0 ==> memoryGB <= limit.memoryGB) && (limit.gpu > 0 ==> gpu <= limit.gpu)
    }
  }

  const NOTHING := Amounts(0, 0, 0, 0)

  datatype Pool = Pool(
    id: string, ownership: Ownership, provider: string, region: string, profile: string, availability: Availability,
    labels: seq<string>, limit: Amounts, used: Amounts,
    perRunnerHour: real, perCPUHour: real, startupCost: real, expectedSeconds: int, p95Seconds: int)

  datatype Request = Request(
    mode: Mode, ownership: Option<Ownership>, provider: string, region: string, profile: string,
    labels: seq<string>, cpu: int, memoryGB: int, gpu: int)

  datatype Error = InvalidPool | PoolExists | PoolNotFound | NoCapacity | BadReservation | StaleReplica | InvalidReplica

  predicate ValidPool(p: Pool) {
    && !Blank(p.id) && !Blank(p.provider) && !Blank(p.region) && !Blank(p.profile)
    && p.limit.NonNegative() && p.used.NonNegative() && p.used.Within(p.limit)
    && p.expectedSeconds >= 0 && p.p95Seconds >= 0 && (p.p95Seconds > 0 ==> p.expectedSeconds <= p.p95Seconds)
    && p.perRunnerHour >= 0.0 && p.perCPUHour >= 0.0 && p.startupCost >= 0.0
    && (forall i | 0 <= i < |p.labels| :: !Blank(p.labels[i]))
    && (forall i, j | 0 <= i < j < |p.labels| :: Trim(p.labels[i]) != Trim(p.labels[j]))
  }

  /** One runner's worth of a pool. */
  datatype Claim = Claim(pool: string, cpu: int, memoryGB: int, gpu: int) {
    function Size(): Amounts {
      Amounts(1, cpu, memoryGB, gpu)
    }

    predicate NonNegative() {
      cpu >= 0 && memoryGB >= 0 && gpu >= 0
    }
  }

  predicate Fits(p: Pool, c: Claim) {
    && (p.limit.runners == 0 || p.used.runners < p.limit.runners)
    && (p.limit.cpu == 0 || p.used.cpu + c.cpu <= p.limit.cpu)
    && (p.limit.memoryGB == 0 || p.used.memoryGB + c.memoryGB <= p.limit.memoryGB)
    && (p.limit.gpu == 0 || p.used.gpu + c.gpu <= p.limit.gpu)
  }

  predicate Covers(p: Pool, c: Claim) {
    p.used.runners >= 1 && p.used.cpu >= c.cpu && p.used.memoryGB >= c.memoryGB && p.used.gpu >= c.gpu
  }

  function Take(p: Pool, c: Claim): Pool {
    p.(used := p.used.Plus(c.Size()))
  }

  function GiveBack(p: Pool, c: Claim): Pool {
    p.(used := p.used.Plus(Amounts(-1, -c.cpu, -c.memoryGB, -c.gpu)))
  }

  type Pools = map<string, Pool>

  // ---------------------------------------------------------------- the ledger as a value

  datatype Reservation = Reservation(id: string, owner: string, token: nat, claim: Claim)

  datatype Ledger = Ledger(pools: Pools, entries: map<string, Reservation>, owner: string, token: nat)

  /** What any replica, known by its owner and token, can do to the shared ledger. */
  datatype Action =
    | Register(pool: Pool)
    | Join(owner: string, token: nat)
    | ReserveFenced(owner: string, token: nat, id: string, claim: Claim)
    | ReleaseFenced(owner: string, token: nat, id: string)

  predicate Fenced(a: Action) {
    a.ReserveFenced? || a.ReleaseFenced?
  }

  function Verdict(l: Ledger, a: Action): Option<Error> {
    match a
    case Register(p) =>
      if !ValidPool(p) then Some(InvalidPool) else if p.id in l.pools then Some(PoolExists) else None
    case Join(owner, token) =>
      if Blank(owner) || token == 0 then Some(InvalidReplica) else None
    case ReserveFenced(owner, token, id, c) =>
      if Blank(id) || Blank(c.pool) || !c.NonNegative() then Some(BadReservation)
      else if token == 0 || owner == "" then Some(InvalidReplica)
      else if token != l.token || owner != l.owner then Some(StaleReplica)
      else if id in l.entries then
        if l.entries[id].owner == owner && l.entries[id].token == token && l.entries[id].claim == c then None
        else Some(BadReservation)
      else if c.pool !in l.pools then Some(PoolNotFound)
      else if l.pools[c.pool].availability != Available || !Fits(l.pools[c.pool], c) then Some(NoCapacity)
      else None
    case ReleaseFenced(owner, token, id) =>
      if Blank(id) then Some(BadReservation)
      else if token == 0 || owner == "" then Some(InvalidReplica)
      else if token != l.token || owner != l.owner then Some(StaleReplica)
      else if id !in l.entries then None
      else
        var c := l.entries[id].claim;
        if c.pool !in l.pools || !Covers(l.pools[c.pool], c) then Some(BadReservation) else None
  }

  function Step(l: Ledger, a: Action): Ledger {
    if Verdict(l, a).Some? then l
    else match a
      case Register(p) => l.(pools := l.pools[p.id := p])
      case Join(owner, token) => if token > l.token then l.(owner := owner, token := token) else l
      case ReserveFenced(owner, token, id, c) =>
        if id in l.entries then l
        else l.(pools := l.pools[c.pool := Take(l.pools[c.pool], c)],
          entries := l.entries[id := Reservation(id, owner, token, c)])
      case ReleaseFenced(owner, token, id) =>
        if id !in l.entries then l
        else
          var c := l.entries[id].claim;
          l.(pools := l.pools[c.pool := GiveBack(l.pools[c.pool], c)], entries := l.entries - {id})
  }

  const EMPTY := Ledger(map[], map[], "", 0)

  function Run(l: Ledger, acts: seq<Action>): Ledger {
    if acts == [] then l else Step(Run(l, acts[..|acts| - 1]), acts[|acts| - 1])
  }

  // ---------------------------------------------------------------- conservation

  function Share(c: Claim, pool: string): Amounts {
    if c.pool == pool then c.Size() else NOTHING
  }

  /** The sum of the claims named by `keys` on one pool. */
  ghost function Sum(claims: map<string, Claim>, keys: set<string>, pool: string): Amounts
    requires keys <= claims.Keys
  {
    if keys == {} then NOTHING
    else var k := Pick(keys); Share(claims[k], pool).Plus(Sum(claims, keys - {k}, pool))
  }

  ghost function Pick(keys: set<string>): (k: string)
    requires keys != {}
    ensures k in keys
  {
    var k :| k in keys;
    k
  }

  ghost function Total(claims: map<string, Claim>, pool: string): Amounts {
    Sum(claims, claims.Keys, pool)
  }

  lemma PlusSwaps(a: Amounts, b: Amounts, c: Amounts)
    ensures a.Plus(b.Plus(c)) == b.Plus(a.Plus(c))
  {
  }

  lemma SumUnfolds(claims: map<string, Claim>, keys: set<string>, pool: string)
    requires keys != {} && keys <= claims.Keys
    ensures var k := Pick(keys);
      Sum(claims, keys, pool) == Share(claims[k], pool).Plus(Sum(claims, keys - {k}, pool))
  {
  }

  lemma {:induction false} SumSplits(claims: map<string, Claim>, keys: set<string>, pool: string, k: string)
    requires k in keys && keys <= claims.Keys
    ensures Sum(claims, keys, pool) == Share(claims[k], pool).Plus(Sum(claims, keys - {k}, pool))
    decreases |keys|
  {
    hide Sum, Amounts.Plus, Share;
    var k0 := Pick(keys);
    SumUnfolds(claims, keys, pool);
    if k0 != k {
      assert keys - {k0} - {k} == keys - {k} - {k0};
      SumSplits(claims, keys - {k0}, pool, k);
      SumSplits(claims, keys - {k}, pool, k0);
      PlusSwaps(Share(claims[k0], pool), Share(claims[k], pool), Sum(claims, keys - {k} - {k0}, pool));
    }
  }

  lemma {:induction false} SumFrame(claims: map<string, Claim>, other: map<string, Claim>, keys: set<string>,
      pool: string)
    requires keys <= claims.Keys && keys <= other.Keys && forall k | k in keys :: claims[k] == other[k]
    ensures Sum(claims, keys, pool) == Sum(other, keys, pool)
  {
    if keys == {} {
    } else {
      var k :| k in keys;
      SumSplits(claims, keys, pool, k);
      SumSplits(other, keys, pool, k);
      SumFrame(claims, other, keys - {k}, pool);
    }
  }

  lemma TotalShrinks(claims: map<string, Claim>, pool: string, k: string)
    requires k in claims
    ensures claims[k].pool == pool ==> Total(claims, pool) == claims[k].Size().Plus(Total(claims - {k}, pool))
    ensures claims[k].pool != pool ==> Total(claims, pool) == Total(claims - {k}, pool)
  {
    hide Sum;
    SumSplits(claims, claims.Keys, pool, k);
    assert (claims - {k}).Keys == claims.Keys - {k};
    SumFrame(claims, claims - {k}, claims.Keys - {k}, pool);
  }

  lemma TotalGrows(claims: map<string, Claim>, pool: string, k: string, c: Claim)
    requires k !in claims
    ensures c.pool == pool ==> Total(claims[k := c], pool) == c.Size().Plus(Total(claims, pool))
    ensures c.pool != pool ==> Total(claims[k := c], pool) == Total(claims, pool)
  {
    hide Total, Amounts.Plus;
    TotalShrinks(claims[k := c], pool, k);
    assert claims[k := c] - {k} == claims;
  }

  lemma {:induction false} SumIsNonNegative(claims: map<string, Claim>, keys: set<string>, pool: string)
    requires keys <= claims.Keys && forall k | k in keys :: claims[k].NonNegative()
    ensures Sum(claims, keys, pool).NonNegative()
  {
    if keys == {} {
    } else {
      var k :| k in keys;
      SumSplits(claims, keys, pool, k);
      SumIsNonNegative(claims, keys - {k}, pool);
    }
  }

  lemma {:induction false} SumOfStrangers(claims: map<string, Claim>, keys: set<string>, pool: string)
    requires keys <= claims.Keys && forall k | k in keys :: claims[k].pool != pool
    ensures Sum(claims, keys, pool) == NOTHING
  {
    if keys == {} {
    } else {
      var k :| k in keys;
      SumSplits(claims, keys, pool, k);
      SumOfStrangers(claims, keys - {k}, pool);
    }
  }

  /** Each pool's usage is what it started with plus the outstanding claims on it, within its limits. */
  ghost predicate Balanced(pools: Pools, claims: map<string, Claim>, base: map<string, Amounts>) {
    && base.Keys == pools.Keys
    && (forall p | p in pools ::
      && pools[p].id == p && base[p].NonNegative() && pools[p].limit.NonNegative()
      && pools[p].used == base[p].Plus(Total(claims, p)) && pools[p].used.Within(pools[p].limit))
    && (forall k | k in claims :: claims[k].NonNegative() && claims[k].pool in pools)
  }

  lemma ClaimsAreCovered(pools: Pools, claims: map<string, Claim>, base: map<string, Amounts>, k: string)
    requires Balanced(pools, claims, base) && k in claims
    ensures Covers(pools[claims[k].pool], claims[k])
  {
    var c := claims[k];
    TotalShrinks(claims, c.pool, k);
    SumIsNonNegative(claims - {k}, (claims - {k}).Keys, c.pool);
  }

  lemma Rebalances(base: Amounts, extra: Amounts, c: Claim)
    ensures base.Plus(extra).Plus(c.Size()) == base.Plus(c.Size().Plus(extra))
    ensures base.Plus(c.Size().Plus(extra)).Plus(Amounts(-1, -c.cpu, -c.memoryGB, -c.gpu)) == base.Plus(extra)
  {
  }

  lemma LimitsKept(p: Pool, c: Claim)
    requires p.limit.NonNegative() && p.used.Within(p.limit)
    ensures Fits(p, c) ==> Take(p, c).used.Within(p.limit)
    ensures c.NonNegative() ==> GiveBack(p, c).used.Within(p.limit)
  {
  }

  lemma OnePoolTakes(pools: Pools, claims: map<string, Claim>, base: map<string, Amounts>, k: string, c: Claim,
      p: string)
    requires Balanced(pools, claims, base) && k !in claims && p in pools && (p == c.pool ==> Fits(pools[p], c))
    ensures var q := if p == c.pool then Take(pools[p], c) else pools[p];
      q.used == base[p].Plus(Total(claims[k := c], p)) && q.used.Within(q.limit)
  {
    hide Total, Amounts.Plus, Amounts.Within, Fits;
    TotalGrows(claims, p, k, c);
    Rebalances(base[p], Total(claims, p), c);
    LimitsKept(pools[p], c);
  }

  lemma OnePoolGivesBack(pools: Pools, claims: map<string, Claim>, base: map<string, Amounts>, k: string, p: string)
    requires Balanced(pools, claims, base) && k in claims && p in pools
    ensures var c := claims[k]; var q := if p == c.pool then GiveBack(pools[p], c) else pools[p];
      q.used == base[p].Plus(Total(claims - {k}, p)) && q.used.Within(q.limit)
  {
    hide Total, Amounts.Plus, Amounts.Within, Fits;
    TotalShrinks(claims, p, k);
    Rebalances(base[p], Total(claims - {k}, p), claims[k]);
    LimitsKept(pools[p], claims[k]);
  }

  lemma TakingBalances(pools: Pools, claims: map<string, Claim>, base: map<string, Amounts>, k: string, c: Claim)
    requires Balanced(pools, claims, base) && k !in claims && c.pool in pools && Fits(pools[c.pool], c)
    requires c.NonNegative()
    ensures Balanced(pools[c.pool := Take(pools[c.pool], c)], claims[k := c], base)
  {
    hide Total, Amounts.Plus, Amounts.Within, Fits;
    forall p | p in pools
      ensures var q := if p == c.pool then Take(pools[p], c) else pools[p];
        q.used == base[p].Plus(Total(claims[k := c], p)) && q.used.Within(q.limit)
    {
      OnePoolTakes(pools, claims, base, k, c, p);
    }
  }

  lemma GivingBackBalances(pools: Pools, claims: map<string, Claim>, base: map<string, Amounts>, k: string)
    requires Balanced(pools, claims, base) && k in claims
    ensures Balanced(pools[claims[k].pool := GiveBack(pools[claims[k].pool], claims[k])], claims - {k}, base)
  {
    hide Total, Amounts.Plus, Amounts.Within, Fits;
    forall p | p in pools
      ensures var c := claims[k]; var q := if p == c.pool then GiveBack(pools[p], c) else pools[p];
        q.used == base[p].Plus(Total(claims - {k}, p)) && q.used.Within(q.limit)
    {
      OnePoolGivesBack(pools, claims, base, k, p);
    }
  }

  lemma NothingClaimed(pools: Pools, claims: map<string, Claim>, base: map<string, Amounts>, p: Pool)
    requires Balanced(pools, claims, base) && p.id !in pools && ValidPool(p)
    ensures p.used == p.used.Plus(Total(claims, p.id))
    ensures p.used.NonNegative() && p.limit.NonNegative() && p.used.Within(p.limit)
  {
    hide Sum;
    SumOfStrangers(claims, claims.Keys, p.id);
  }

  lemma AddingBalances(pools: Pools, claims: map<string, Claim>, base: map<string, Amounts>, p: Pool)
    requires Balanced(pools, claims, base) && p.id !in pools && ValidPool(p)
    ensures Balanced(pools[p.id := p], claims, base[p.id := p.used])
  {
    hide Total, Amounts.Within, Amounts.Plus, Amounts.NonNegative, Fits, ValidPool;
    NothingClaimed(pools, claims, base, p);
  }

  function ClaimsOf(entries: map<string, Reservation>): map<string, Claim> {
    map k | k in entries :: entries[k].claim
  }

  /** The pools balance against the ledger's entries. */
  ghost predicate Conserved(l: Ledger, base: map<string, Amounts>) {
    Balanced(l.pools, ClaimsOf(l.entries), base)
  }

  /** What the pools were registered with, after one more action. */
  function BaseAfter(l: Ledger, base: map<string, Amounts>, a: Action): map<string, Amounts> {
    if a.Register? && Verdict(l, a).None? then base[a.pool.id := a.pool.used] else base
  }

  /** A current replica can always give back what the ledger records: the underflow guard is never hit. */
  lemma CurrentReleaseSucceeds(l: Ledger, base: map<string, Amounts>, id: string)
    requires Conserved(l, base) && id in l.entries && !Blank(id) && l.token > 0 && l.owner != ""
    ensures Verdict(l, ReleaseFenced(l.owner, l.token, id)).None?
  {
    ClaimsAreCovered(l.pools, ClaimsOf(l.entries), base, id);
  }

  lemma StepConserves(l: Ledger, base: map<string, Amounts>, a: Action)
    requires Conserved(l, base)
    ensures Conserved(Step(l, a), BaseAfter(l, base, a))
  {
    hide Balanced, Fits, Covers, ValidPool, Take, GiveBack;
    if Verdict(l, a).None? {
      var claims := ClaimsOf(l.entries);
      match a
      case Register(p) => AddingBalances(l.pools, claims, base, p);
      case Join(_, _) =>
      case ReserveFenced(_, _, id, c) =>
        if id !in l.entries {
          TakingBalances(l.pools, claims, base, id, c);
          assert ClaimsOf(Step(l, a).entries) == claims[id := c];
        }
      case ReleaseFenced(_, _, id) =>
        if id in l.entries {
          GivingBackBalances(l.pools, claims, base, id);
          assert ClaimsOf(Step(l, a).entries) == claims - {id};
        }
    }
  }

  function BaseOver(acts: seq<Action>): map<string, Amounts> {
    if acts == [] then map[]
    else var n := |acts| - 1; BaseAfter(Run(EMPTY, acts[..n]), BaseOver(acts[..n]), acts[n])
  }

  /** Conservation over every interleaving of registrations, joins, reservations and releases. */
  lemma {:induction false} RunsConserve(acts: seq<Action>)
    ensures Conserved(Run(EMPTY, acts), BaseOver(acts))
  {
    if acts == [] {
    } else {
      RunsConserve(acts[..|acts| - 1]);
      StepConserves(Run(EMPTY, acts[..|acts| - 1]), BaseOver(acts[..|acts| - 1]), acts[|acts| - 1]);
    }
  }

  // ---------------------------------------------------------------- fencing

  lemma {:induction false} TokensNeverFall(l: Ledger, acts: seq<Action>, i: nat, j: nat)
    requires i <= j <= |acts|
    ensures Run(l, acts[..i]).token <= Run(l, acts[..j]).token
    ensures Run(l, acts[..i]).token == Run(l, acts[..j]).token ==> Run(l, acts[..i]).owner == Run(l, acts[..j]).owner
    decreases j
  {
    if i < j {
      TokensNeverFall(l, acts, i, j - 1);
      assert acts[..j][..j - 1] == acts[..j - 1];
    }
  }

  predicate Succeeds(l: Ledger, acts: seq<Action>, i: nat) {
    i < |acts| && Fenced(acts[i]) && Verdict(Run(l, acts[..i]), acts[i]).None?
  }

  /** Tokens of successful fenced mutations never decrease, and one token never works for two owners. */
  lemma FencedSuccessesAreOrdered(l: Ledger, acts: seq<Action>, i: nat, j: nat)
    requires i <= j && Succeeds(l, acts, i) && Succeeds(l, acts, j)
    ensures acts[i].token <= acts[j].token
    ensures acts[i].token == acts[j].token ==> acts[i].owner == acts[j].owner
  {
    TokensNeverFall(l, acts, i, j);
  }

  /** Once a larger token is installed an older replica changes nothing ever again. */
  lemma StaleForever(l: Ledger, acts: seq<Action>, i: nat, j: nat)
    requires i <= j < |acts| && Fenced(acts[j]) && acts[j].token < Run(l, acts[..i]).token
    ensures !Succeeds(l, acts, j) && Run(l, acts[..j + 1]) == Run(l, acts[..j])
  {
    TokensNeverFall(l, acts, i, j);
    assert acts[..j + 1][..j] == acts[..j];
  }

  // ---------------------------------------------------------------- retries and undoing

  /** Repeating an accepted reservation is accepted and changes nothing; another claim under its id is refused. */
  lemma RetriesAreIdempotent(l: Ledger, owner: string, token: nat, id: string, c: Claim, other: Claim)
    requires Verdict(l, ReserveFenced(owner, token, id, c)).None?
    ensures var l' := Step(l, ReserveFenced(owner, token, id, c));
      && Verdict(l', ReserveFenced(owner, token, id, c)).None? && Step(l', ReserveFenced(owner, token, id, c)) == l'
      && (other != c ==> Verdict(l', ReserveFenced(owner, token, id, other)) == Some(BadReservation))
  {
    hide Fits, Covers, Take, GiveBack, ValidPool, Blank;
  }

  /** Releasing a new reservation restores the ledger to what it was, and releasing it again changes nothing. */
  lemma ReleaseUndoesReserve(l: Ledger, owner: string, token: nat, id: string, c: Claim)
    requires Verdict(l, ReserveFenced(owner, token, id, c)).None? && id !in l.entries
    requires l.pools[c.pool].used.NonNegative()
    ensures var l' := Step(l, ReserveFenced(owner, token, id, c));
      && Verdict(l', ReleaseFenced(owner, token, id)).None? && Step(l', ReleaseFenced(owner, token, id)) == l
      && Step(l, ReleaseFenced(owner, token, id)) == l
  {
    hide Fits, ValidPool, Blank;
    var p := l.pools[c.pool];
    assert GiveBack(Take(p, c), c) == p;
    assert l.pools[c.pool := p] == l.pools;
    assert l.pools[c.pool := Take(p, c)][c.pool := p] == l.pools;
    assert l.entries[id := Reservation(id, owner, token, c)] - {id} == l.entries;
  }

  // ---------------------------------------------------------------- selection

  function OwnershipOrder(mode: Mode, requested: Option<Ownership>): seq<Option<Ownership>> {
    if requested.Some? then [requested]
    else match mode
      case CustomerFirst => [Some(CustomerOwned), Some(Managed)]
      case ManagedFirst => [Some(Managed), Some(CustomerOwned)]
      case CustomerOnly => [Some(CustomerOwned)]
      case ManagedOnly => [Some(Managed)]
      case OtherMode => [None]
  }

  predicate InClass(p: Pool, class_: Option<Ownership>) {
    class_.None? || class_.value == p.ownership
  }

  function AsClaim(r: Request, pool: string): Claim {
    Claim(pool, r.cpu, r.memoryGB, r.gpu)
  }

  predicate Matches(p: Pool, r: Request) {
    && p.availability == Available
    && (r.provider == "" || p.provider == r.provider)
    && (r.region == "" || p.region == r.region)
    && (r.profile == "" || p.profile == r.profile)
    && r.cpu >= 0 && r.memoryGB >= 0 && r.gpu >= 0
    && (forall i | 0 <= i < |r.labels| :: r.labels[i] in p.labels)
    && Fits(p, AsClaim(r, p.id))
  }

  predicate Less(a: Pool, b: Pool, byProvider: bool) {
    if byProvider && a.provider != b.provider then StringLess(a.provider, b.provider)
    else if a.expectedSeconds != b.expectedSeconds then a.expectedSeconds < b.expectedSeconds
    else if a.perRunnerHour != b.perRunnerHour then a.perRunnerHour < b.perRunnerHour
    else if a.region != b.region then StringLess(a.region, b.region)
    else StringLess(a.id, b.id)
  }

  function LessFor(r: Request): (Pool, Pool) -> bool {
    (a, b) => Less(a, b, r.provider != "")
  }

  lemma LessTransitive(a: Pool, b: Pool, c: Pool, byProvider: bool)
    requires Less(a, b, byProvider) && Less(b, c, byProvider)
    ensures Less(a, c, byProvider)
  {
    if StringLess(a.provider, b.provider) && StringLess(b.provider, c.provider) {
      StringLessTransitive(a.provider, b.provider, c.provider);
    }
    StringLessTotal(a.provider, b.provider);
    if StringLess(a.region, b.region) && StringLess(b.region, c.region) {
      StringLessTransitive(a.region, b.region, c.region);
    }
    StringLessTotal(a.region, b.region);
    if StringLess(a.id, b.id) && StringLess(b.id, c.id) {
      StringLessTransitive(a.id, b.id, c.id);
    }
  }

  lemma LessTotal(a: Pool, b: Pool, byProvider: bool)
    ensures !Less(a, a, byProvider)
    ensures a.id != b.id ==> Less(a, b, byProvider) || Less(b, a, byProvider)
  {
    StringLessTotal(a.provider, b.provider);
    StringLessTotal(a.region, b.region);
    StringLessTotal(a.id, b.id);
    StringLessTotal(a.id, a.id);
  }

  /** The comparator is a strict total order on pools with different ids. */
  lemma LessIsStrictTotal(r: Request, s: multiset<Pool>)
    requires forall x, y | x in s && y in s && x.id == y.id :: x == y
    ensures StrictTotalOn(LessFor(r), s)
  {
    var named := r.provider != "";
    forall x: Pool, y: Pool
      ensures !LessFor(r)(x, x) && (x in s && y in s && x != y ==> LessFor(r)(x, y) || LessFor(r)(y, x))
    {
      LessTotal(x, y, named);
    }
    forall x: Pool, y: Pool, z: Pool | LessFor(r)(x, y) && LessFor(r)(y, z) ensures LessFor(r)(x, z) {
      LessTransitive(x, y, z, named);
    }
  }

  predicate Eligible(pools: Pools, id: string, r: Request) {
    id in pools && Matches(pools[id], r)
  }

  /** The least eligible pool of the first ownership class that has one; none if no class has any. */
  ghost predicate IsSelection(pools: Pools, r: Request, choice: Option<Pool>) {
    var order := OwnershipOrder(r.mode, r.ownership);
    if choice.None? then
      forall id, i | Eligible(pools, id, r) && 0 <= i < |order| :: !InClass(pools[id], order[i])
    else
      var best := choice.value;
      && Eligible(pools, best.id, r) && pools[best.id] == best
      && exists i | 0 <= i < |order| ::
        && InClass(best, order[i])
        && (forall id, k | Eligible(pools, id, r) && 0 <= k < i :: !InClass(pools[id], order[k]))
        && (forall id | Eligible(pools, id, r) && InClass(pools[id], order[i]) && id != best.id ::
            LessFor(r)(best, pools[id]))
  }

  /** Selection is a function of the registry's contents: map iteration order cannot show. */
  lemma SelectionUnique(pools: Pools, r: Request, a: Option<Pool>, b: Option<Pool>)
    requires forall id | id in pools :: pools[id].id == id
    requires IsSelection(pools, r, a) && IsSelection(pools, r, b)
    ensures a == b
  {
    if a.Some? && b.Some? && a.value.id != b.value.id {
      var x, y := a.value, b.value;
      if LessFor(r)(x, y) && LessFor(r)(y, x) {
        LessTransitive(x, y, x, r.provider != "");
      }
      LessTotal(x, x, r.provider != "");
    }
  }

  /** Reserving the selected pool for the same request at once succeeds. */
  lemma SelectionCanBeReserved(pools: Pools, r: Request, choice: Option<Pool>)
    requires IsSelection(pools, r, choice) && choice.Some?
    ensures ReserveVerdict(pools, AsClaim(r, choice.value.id)).None?
  {
  }

  // ---------------------------------------------------------------- unfenced reservations

  function ReserveVerdict(pools: Pools, c: Claim): Option<Error> {
    if !c.NonNegative() then Some(BadReservation)
    else if c.pool !in pools then Some(PoolNotFound)
    else if pools[c.pool].availability != Available || !Fits(pools[c.pool], c) then Some(NoCapacity)
    else None
  }

  function ReleaseVerdict(pools: Pools, c: Claim): Option<Error> {
    if !c.NonNegative() then Some(BadReservation)
    else if c.pool !in pools then Some(PoolNotFound)
    else if !Covers(pools[c.pool], c) then Some(BadReservation)
    else None
  }

  function Reserved(pools: Pools, c: Claim): Pools {
    if ReserveVerdict(pools, c).None? then pools[c.pool := Take(pools[c.pool], c)] else pools
  }

  function Released(pools: Pools, c: Claim): Pools {
    if ReleaseVerdict(pools, c).None? then pools[c.pool := GiveBack(pools[c.pool], c)] else pools
  }

  /** The unfenced Release bypasses the ledger: whenever it is accepted, usage and entries part ways. */
  lemma UnfencedReleaseUnbalances(l: Ledger, base: map<string, Amounts>, c: Claim)
    requires Conserved(l, base) && ReleaseVerdict(l.pools, c).None?
    ensures !Conserved(l.(pools := Released(l.pools, c)), base)
  {
    var p := l.pools[c.pool];
    assert GiveBack(p, c).used.runners == p.used.runners - 1;
  }

  // ---------------------------------------------------------------- what is accepted

  /** A pool is registered exactly if its id is new and nothing about it is blank, negative, over its limit or twice. */
  lemma RegisterAcceptedIff(l: Ledger, p: Pool)
    ensures Verdict(l, Register(p)).None? <==>
      && p.id !in l.pools && !Blank(p.id) && !Blank(p.provider) && !Blank(p.region) && !Blank(p.profile)
      && p.limit.NonNegative() && p.used.NonNegative()
      && (p.limit.runners == 0 || p.used.runners <= p.limit.runners) && (p.limit.cpu == 0 || p.used.cpu <= p.limit.cpu)
      && (p.limit.memoryGB == 0 || p.used.memoryGB <= p.limit.memoryGB)
      && (p.limit.gpu == 0 || p.used.gpu <= p.limit.gpu)
      && 0 <= p.expectedSeconds && 0 <= p.p95Seconds && (p.p95Seconds == 0 || p.expectedSeconds <= p.p95Seconds)
      && p.perRunnerHour >= 0.0 && p.perCPUHour >= 0.0 && p.startupCost >= 0.0
      && (forall i | 0 <= i < |p.labels| :: !Blank(p.labels[i]))
      && (forall i, j | 0 <= i < |p.labels| && 0 <= j < |p.labels| && Trim(p.labels[i]) == Trim(p.labels[j]) :: i == j)
  {
    hide Blank, Trim;
  }

  /** A reservation is accepted exactly if its pool is available and its usage stays within the limits with it. */
  lemma ReserveAcceptedIff(pools: Pools, c: Claim)
    requires c.pool in pools ==> pools[c.pool].limit.NonNegative()
    ensures ReserveVerdict(pools, c) == Some(BadReservation) <==> c.cpu < 0 || c.memoryGB < 0 || c.gpu < 0
    ensures ReserveVerdict(pools, c) == Some(PoolNotFound) <==> c.NonNegative() && c.pool !in pools
    ensures c.NonNegative() && c.pool in pools ==>
      ReserveVerdict(pools, c) ==
        if pools[c.pool].availability == Available && pools[c.pool].used.Plus(c.Size()).Within(pools[c.pool].limit)
        then None else Some(NoCapacity)
  {
  }

  /** The same of a new reservation in the ledger, if the replica holds the ledger's owner and token. */
  lemma FencedReserveAcceptedIff(l: Ledger, owner: string, token: nat, id: string, c: Claim)
    requires id !in l.entries && (c.pool in l.pools ==> l.pools[c.pool].limit.NonNegative())
    ensures Verdict(l, ReserveFenced(owner, token, id, c)).None? <==>
      && !Blank(id) && !Blank(c.pool) && c.NonNegative()
      && token > 0 && owner != "" && token == l.token && owner == l.owner
      && c.pool in l.pools && l.pools[c.pool].availability == Available
      && l.pools[c.pool].used.Plus(c.Size()).Within(l.pools[c.pool].limit)
    ensures Verdict(l, ReserveFenced(owner, token, id, c)) == Some(StaleReplica) <==>
      && !Blank(id) && !Blank(c.pool) && c.NonNegative() && token > 0 && owner != ""
      && (token != l.token || owner != l.owner)
  {
  }

  /** A release is accepted from the current replica exactly if the entry is unknown or its pool's usage covers it. */
  lemma FencedReleaseAcceptedIff(l: Ledger, owner: string, token: nat, id: string)
    ensures Verdict(l, ReleaseFenced(owner, token, id)).None? <==>
      && !Blank(id) && token > 0 && owner != "" && token == l.token && owner == l.owner
      && (id in l.entries ==>
        var c := l.entries[id].claim;
        c.pool in l.pools && l.pools[c.pool].used.Plus(Amounts(-1, -c.cpu, -c.memoryGB, -c.gpu)).NonNegative())
    ensures Verdict(l, ReleaseFenced(owner, token, id)) == Some(StaleReplica) <==>
      !Blank(id) && token > 0 && owner != "" && (token != l.token || owner != l.owner)
  {
    if id in l.entries {
      var c := l.entries[id].claim;
      assert c.pool in l.pools ==>
        l.pools[c.pool].used.Plus(Amounts(-1, -c.cpu, -c.memoryGB, -c.gpu)).runners == l.pools[c.pool].used.runners - 1;
    }
  }

  /** A release is accepted exactly if no usage of the pool falls below zero. */
  lemma ReleaseAcceptedIff(pools: Pools, c: Claim)
    requires c.NonNegative() && c.pool in pools
    ensures ReleaseVerdict(pools, c).None? <==> Released(pools, c) != pools
    ensures ReleaseVerdict(pools, c).None? <==>
      pools[c.pool].used.Plus(Amounts(-1, -c.cpu, -c.memoryGB, -c.gpu)).NonNegative()
  {
    assert pools[c.pool].used.Plus(Amounts(-1, -c.cpu, -c.memoryGB, -c.gpu)).runners == pools[c.pool].used.runners - 1;
  }

  /** The pools after reserving the same claim `n` times. */
  function ReservedOften(pools: Pools, c: Claim, n: nat): Pools {
    if n == 0 then pools else Reserved(ReservedOften(pools, c, n - 1), c)
  }

  /** A pool limited in runners alone takes exactly as many of them as its limit says, and then no more. */
  lemma {:induction false} PoolTakesExactlyItsLimit(pools: Pools, c: Claim, n: nat)
    requires c.NonNegative() && c.pool in pools && pools[c.pool].availability == Available
    requires var limit := pools[c.pool].limit; limit.runners > 0 && limit.cpu == limit.memoryGB == limit.gpu == 0
    requires 0 <= pools[c.pool].used.runners <= pools[c.pool].limit.runners
    ensures var after, free := ReservedOften(pools, c, n), pools[c.pool].limit.runners - pools[c.pool].used.runners;
      && c.pool in after && after[c.pool] == pools[c.pool].(used := after[c.pool].used)
      && after[c.pool].used.runners == pools[c.pool].used.runners + (if n < free then n else free)
      && (ReserveVerdict(after, c).None? <==> n < free)
  {
    if n == 0 {
    } else {
      PoolTakesExactlyItsLimit(pools, c, n - 1);
    }
  }

  /** A pool can serve a request exactly if it is what was asked for and has room for it. */
  lemma EligibleIff(pools: Pools, id: string, r: Request)
    requires id in pools && pools[id].id == id && pools[id].limit.NonNegative()
    ensures Eligible(pools, id, r) <==>
      && (r.provider != "" ==> pools[id].provider == r.provider)
      && (r.region != "" ==> pools[id].region == r.region) && (r.profile != "" ==> pools[id].profile == r.profile)
      && (forall wanted | wanted in r.labels :: wanted in pools[id].labels)
      && r.cpu >= 0 && r.memoryGB >= 0 && r.gpu >= 0 && pools[id].availability == Available
      && pools[id].used.Plus(Amounts(1, r.cpu, r.memoryGB, r.gpu)).Within(pools[id].limit)
  {
  }

  /** The ownership a mode prefers, and the one it excludes. */
  function Preferred(r: Request): Option<Ownership> {
    if r.ownership.Some? then r.ownership
    else if r.mode in {CustomerFirst, CustomerOnly} then Some(CustomerOwned)
    else if r.mode in {ManagedFirst, ManagedOnly} then Some(Managed)
    else None
  }

  predicate Excluded(r: Request, o: Ownership) {
    if r.ownership.Some? then o != r.ownership.value
    else (r.mode == CustomerOnly && o == Managed) || (r.mode == ManagedOnly && o == CustomerOwned)
  }

  predicate Candidate(pools: Pools, id: string, r: Request) {
    Eligible(pools, id, r) && !Excluded(r, pools[id].ownership)
  }

  /** Not later than another pool; of equally soon ones not dearer, and of these not behind it by region. */
  predicate NoWorse(a: Pool, b: Pool) {
    && a.expectedSeconds <= b.expectedSeconds
    && (a.expectedSeconds == b.expectedSeconds ==> a.perRunnerHour <= b.perRunnerHour)
    && (a.expectedSeconds == b.expectedSeconds && a.perRunnerHour == b.perRunnerHour ==>
      a.region == b.region || StringLess(a.region, b.region))
  }

  /** A candidate's ownership is among those tried, and the first one tried is the preferred one. */
  lemma OwnershipsTried(r: Request, p: Pool)
    ensures var order := OwnershipOrder(r.mode, r.ownership);
      && 1 <= |order| <= 2 && order[0] == Preferred(r)
      && (InClass(p, order[0]) || (|order| == 2 && InClass(p, order[1])) <==> !Excluded(r, p.ownership))
      && (|order| == 2 ==> Preferred(r).Some?)
      && (forall i | 0 <= i < |order| && order[i].Some? && InClass(p, order[i]) :: order[i] == Some(p.ownership))
  {
  }

  lemma FirstIsNoWorse(pools: Pools, r: Request, a: string, b: string)
    requires Eligible(pools, a, r) && Eligible(pools, b, r) && LessFor(r)(pools[a], pools[b])
    ensures NoWorse(pools[a], pools[b])
  {
  }

  /** A request is answered exactly if it has a candidate, and with one of the preferred ownership if there is any. */
  lemma SelectionFollowsMode(pools: Pools, r: Request, choice: Option<Pool>)
    requires (forall id | id in pools :: pools[id].id == id) && IsSelection(pools, r, choice)
    ensures choice.Some? <==> exists id :: Candidate(pools, id, r)
    ensures choice.Some? ==> Candidate(pools, choice.value.id, r) && pools[choice.value.id] == choice.value
    ensures choice.Some? && Preferred(r).Some? && choice.value.ownership != Preferred(r).value ==>
      forall id | Candidate(pools, id, r) :: pools[id].ownership != Preferred(r).value
  {
    hide Matches;
    var order := OwnershipOrder(r.mode, r.ownership);
    if choice.Some? {
      OwnershipsTried(r, choice.value);
      assert Candidate(pools, choice.value.id, r);
    } else if id :| Candidate(pools, id, r) {
      OwnershipsTried(r, pools[id]);
    }
  }

  /** Of the candidates of its ownership, or of all if none is preferred, the choice is the soonest and cheapest. */
  lemma SelectionIsBest(pools: Pools, r: Request, choice: Option<Pool>, id: string)
    requires (forall x | x in pools :: pools[x].id == x) && IsSelection(pools, r, choice)
    requires choice.Some? && Candidate(pools, id, r)
    requires Preferred(r).Some? ==> pools[id].ownership == choice.value.ownership
    ensures NoWorse(choice.value, pools[id])
  {
    hide Matches;
    var best := choice.value;
    OwnershipsTried(r, pools[id]);
    OwnershipsTried(r, best);
    if id != best.id {
      FirstIsNoWorse(pools, r, best.id, id);
    }
  }

  // ---------------------------------------------------------------- the registry and its replicas

  class Registry {
    var pools: Pools
    var reservations: map<string, Reservation>
    var activeOwner: string
    var activeToken: nat

    ghost function Contents(): Ledger
      reads this
    {
      Ledger(pools, reservations, activeOwner, activeToken)
    }

    constructor ()
      ensures Contents() == EMPTY
    {
      pools, reservations, activeOwner, activeToken := map[], map[], "", 0;
    }

    method Register(p: Pool) returns (err: Option<Error>)
      modifies this`pools
      ensures err == Verdict(old(Contents()), Action.Register(p))
      ensures Contents() == Step(old(Contents()), Action.Register(p))
    {
      if !ValidPool(p) {
        return Some(InvalidPool);
      }
      if p.id in pools {
        return Some(PoolExists);
      }
      pools := pools[p.id := p];
      err := None;
    }

    method Reserve(c: Claim) returns (err: Option<Error>)
      modifies this`pools
      ensures err == ReserveVerdict(old(pools), c) && pools == Reserved(old(pools), c)
    {
      if !c.NonNegative() {
        return Some(BadReservation);
      }
      if c.pool !in pools {
        return Some(PoolNotFound);
      }
      var p := pools[c.pool];
      if p.availability != Available || !Fits(p, c) {
        return Some(NoCapacity);
      }
      p := p.(used := Amounts(p.used.runners + 1, p.used.cpu + c.cpu, p.used.memoryGB + c.memoryGB,
        p.used.gpu + c.gpu));
      pools := pools[c.pool := p];
      err := None;
    }

    method Release(c: Claim) returns (err: Option<Error>)
      modifies this`pools
      ensures err == ReleaseVerdict(old(pools), c) && pools == Released(old(pools), c)
    {
      if !c.NonNegative() {
        return Some(BadReservation);
      }
      if c.pool !in pools {
        return Some(PoolNotFound);
      }
      var p := pools[c.pool];
      if p.used.runners < 1 || p.used.cpu < c.cpu || p.used.memoryGB < c.memoryGB || p.used.gpu < c.gpu {
        return Some(BadReservation);
      }
      p := p.(used := Amounts(p.used.runners - 1, p.used.cpu - c.cpu, p.used.memoryGB - c.memoryGB,
        p.used.gpu - c.gpu));
      pools := pools[c.pool := p];
      err := None;
    }

    /** The ownership classes in turn; the candidates of a class are sorted and the first one is taken. */
    method Select(r: Request) returns (choice: Option<Pool>)
      requires forall id | id in pools :: pools[id].id == id
      ensures IsSelection(pools, r, choice)
    {
      var all := Collect(pools, p => Matches(p, r));
      ghost var kept := Kept(pools, p => Matches(p, r), pools.Keys);
      SameMembers(all, kept);
      var order := OwnershipOrder(r.mode, r.ownership);
      for i := 0 to |order|
        invariant forall id, k | Eligible(pools, id, r) && 0 <= k < i :: !InClass(pools[id], order[k])
      {
        var candidates := [];
        for n := 0 to |all|
          invariant forall x :: x in candidates <==> x in all[..n] && InClass(x, order[i])
        {
          if InClass(all[n], order[i]) {
            candidates := candidates + [all[n]];
          }
        }
        assert all[..|all|] == all;
        var sorted := Sort(LessFor(r), candidates);
        SortKeeps(LessFor(r), candidates);
        if |sorted| > 0 {
          LeastOfSorted(pools, r, candidates, sorted);
          assert InClass(sorted[0], order[i]) && Eligible(pools, sorted[0].id, r);
          return Some(sorted[0]);
        }
        forall id | Eligible(pools, id, r) ensures !InClass(pools[id], order[i]) {
          assert pools[id] in kept;
          assert pools[id] !in candidates;
        }
      }
      choice := None;
    }
  }

  lemma SameMembers(s: seq<Pool>, t: set<Pool>)
    requires multiset(s) == multiset(t)
    ensures forall x :: x in s <==> x in t
  {
    assert forall x :: x in s <==> x in multiset(s);
    assert forall x :: x in t <==> x in multiset(t);
  }

  lemma LeastOfSorted(pools: Pools, r: Request, candidates: seq<Pool>, sorted: seq<Pool>)
    requires forall x | x in candidates :: x.id in pools && pools[x.id] == x
    requires sorted == Sort(LessFor(r), candidates) && |sorted| > 0
    ensures sorted[0] in candidates
    ensures forall x | x in candidates && x.id != sorted[0].id :: LessFor(r)(sorted[0], x)
  {
    SortKeeps(LessFor(r), candidates);
    LessIsStrictTotal(r, multiset(candidates));
    SortOrders(LessFor(r), candidates);
    assert sorted == [sorted[0]] + sorted[1..];
    forall x | x in candidates && x.id != sorted[0].id ensures LessFor(r)(sorted[0], x) {
      assert x in sorted[1..];
      LessTotal(sorted[0], x, r.provider != "");
    }
  }

  /** A controller's view of the registry, known by its lease's owner and fencing token. */
  class Replica {
    const registry: Registry
    const owner: string
    const token: nat

    constructor (registry: Registry, owner: string, token: nat)
      ensures this.registry == registry && this.owner == owner && this.token == token
    {
      this.registry, this.owner, this.token := registry, owner, token;
    }

    /** A blank owner and token 0 are refused; a token larger than the active one takes the registry over. */
    static method NewReplica(registry: Registry, owner: string, token: nat) returns (r: Result<Replica, Error>)
      modifies registry`activeOwner, registry`activeToken
      ensures registry.Contents() == Step(old(registry.Contents()), Join(owner, token))
      ensures r.Ok? ==>
        && Verdict(old(registry.Contents()), Join(owner, token)).None?
        && fresh(r.value) && r.value.registry == registry && r.value.owner == owner && r.value.token == token
      ensures r.Err? ==> Verdict(old(registry.Contents()), Join(owner, token)) == Some(r.error)
    {
      if Blank(owner) || token == 0 {
        return Err(InvalidReplica);
      }
      if token > registry.activeToken {
        registry.activeToken := token;
        registry.activeOwner := owner;
      }
      var replica := new Replica(registry, owner, token);
      r := Ok(replica);
    }

    method ReserveFenced(id: string, c: Claim) returns (err: Option<Error>)
      modifies registry`pools, registry`reservations
      ensures err == Verdict(old(registry.Contents()), Action.ReserveFenced(owner, token, id, c))
      ensures registry.Contents() == Step(old(registry.Contents()), Action.ReserveFenced(owner, token, id, c))
    {
      if Blank(id) || Blank(c.pool) || !c.NonNegative() {
        return Some(BadReservation);
      }
      err := Guard();
      if err.Some? {
        return;
      }
      if id in registry.reservations {
        var existing := registry.reservations[id];
        if existing.owner == owner && existing.token == token && existing.claim == c {
          return None;
        }
        return Some(BadReservation);
      }
      if c.pool !in registry.pools {
        return Some(PoolNotFound);
      }
      var p := registry.pools[c.pool];
      if p.availability != Available || !Fits(p, c) {
        return Some(NoCapacity);
      }
      p := p.(used := Amounts(p.used.runners + 1, p.used.cpu + c.cpu, p.used.memoryGB + c.memoryGB,
        p.used.gpu + c.gpu));
      registry.pools := registry.pools[c.pool := p];
      registry.reservations := registry.reservations[id := Reservation(id, owner, token, c)];
    }

    method ReleaseFenced(id: string) returns (err: Option<Error>)
      modifies registry`pools, registry`reservations
      ensures err == Verdict(old(registry.Contents()), Action.ReleaseFenced(owner, token, id))
      ensures registry.Contents() == Step(old(registry.Contents()), Action.ReleaseFenced(owner, token, id))
    {
      if Blank(id) {
        return Some(BadReservation);
      }
      err := Guard();
      if err.Some? || id !in registry.reservations {
        return;
      }
      var c := registry.reservations[id].claim;
      if c.pool !in registry.pools {
        return Some(BadReservation);
      }
      var p := registry.pools[c.pool];
      if p.used.runners < 1 || p.used.cpu < c.cpu || p.used.memoryGB < c.memoryGB || p.used.gpu < c.gpu {
        return Some(BadReservation);
      }
      p := p.(used := Amounts(p.used.runners - 1, p.used.cpu - c.cpu, p.used.memoryGB - c.memoryGB,
        p.used.gpu - c.gpu));
      registry.pools := registry.pools[c.pool := p];
      registry.reservations := registry.reservations - {id};
    }

    /** fencedLocked */
    method Guard() returns (err: Option<Error>)
      ensures err == if token == 0 || owner == "" then Some(InvalidReplica)
        else if token != registry.activeToken || owner != registry.activeOwner then Some(StaleReplica)
        else None
    {
      if token == 0 || owner == "" {
        return Some(InvalidReplica);
      }
      if token != registry.activeToken || owner != registry.activeOwner {
        return Some(StaleReplica);
      }
      err := None;
    }
  }
}
