/**
 The two DynamoDB indexes against the memory repository's filters
 (controller/internal/state/dynamodb/repository.go:199-201, 307-336, 611-789).
 */
module Indexes {
  import opened Common
  import opened Ordering
  import opened Decimal
  import opened Records
  import opened Memory
  import opened Paging

  // ---------------------------------------------------------------- the state index

  /** One query per wanted state, the answers appended. */
  ghost function Queried<B, S>(t: Table<B>, stateOf: Record<B> -> S, wanted: seq<S>): multiset<Record<B>> {
    if wanted == [] then multiset{}
    else Queried(t, stateOf, wanted[..|wanted| - 1]) + multiset(InState(t, stateOf, wanted[|wanted| - 1]))
  }

  ghost function InState<B, S>(t: Table<B>, stateOf: Record<B> -> S, s: S): set<Record<B>> {
    Kept(t, r => stateOf(r) == s, t.Keys)
  }

  ghost function InStates<B, S>(t: Table<B>, stateOf: Record<B> -> S, wanted: seq<S>): set<Record<B>> {
    Kept(t, r => wanted == [] || stateOf(r) in wanted, t.Keys)
  }

  /** No state is asked for twice, unless no record is in it. */
  ghost predicate NoneAskedTwice<B, S>(t: Table<B>, stateOf: Record<B> -> S, wanted: seq<S>) {
    forall i, j, id | 0 <= i < j < |wanted| && wanted[i] == wanted[j] && id in t :: stateOf(t[id]) != wanted[i]
  }

  /** ListJobs, ListRunners and ListLeases: a scan, or one query of the state index for each wanted state. */
  method ListByState<B(!new), S(==)>(t: Table<B>, stateOf: Record<B> -> S, wanted: seq<S>,
                                    scan: seq<seq<Record<B>>>, index: S -> seq<seq<Record<B>>>)
    returns (out: seq<Record<B>>)
    requires forall id | id in t :: t[id].id == id
    requires multiset(Flatten(scan)) == multiset(InStates(t, stateOf, []))
    requires forall s | s in wanted :: multiset(Flatten(index(s))) == multiset(InState(t, stateOf, s))
    ensures Ordered(ByID, out)
    ensures multiset(out) == if wanted == [] then multiset(InStates(t, stateOf, [])) else Queried(t, stateOf, wanted)
    ensures IsListing(t, r => wanted == [] || stateOf(r) in wanted, out) <==> NoneAskedTwice(t, stateOf, wanted)
  {
    var raw: seq<Record<B>>;
    if wanted == [] {
      raw := ReadPages(scan);
    } else {
      raw := [];
      for i := 0 to |wanted|
        invariant multiset(raw) == Queried(t, stateOf, wanted[..i])
      {
        var page := ReadPages(index(wanted[i]));
        raw := raw + page;
        assert wanted[..i + 1][..i] == wanted[..i];
      }
      assert wanted[..|wanted|] == wanted;
    }
    forall x: Record<B>, y: Record<B> | x in multiset(raw) && y in multiset(raw) && x.id == y.id ensures x == y {
      QueriedRowsAreRows(t, stateOf, wanted, x);
      QueriedRowsAreRows(t, stateOf, wanted, y);
    }
    out := Sort(ByID, raw);
    ByIDStrictTotal(multiset(raw));
    SortKeeps(ByID, raw);
    SortOrders(ByID, raw);
    if wanted != [] {
      StateIndexAgreesIff(t, stateOf, wanted);
    }
  }

  lemma {:induction false} QueriedRowsAreRows<B, S>(t: Table<B>, stateOf: Record<B> -> S, wanted: seq<S>, r: Record<B>)
    ensures r in Queried(t, stateOf, wanted) <==> r in t.Values && stateOf(r) in wanted
  {
    if wanted == [] {
    } else {
      var n := |wanted| - 1;
      QueriedRowsAreRows(t, stateOf, wanted[..n], r);
      assert wanted == wanted[..n] + [wanted[n]];
      assert r in InState(t, stateOf, wanted[n]) <==> r in t.Values && stateOf(r) == wanted[n] by {
        if r in t.Values {
          var id :| id in t && t[id] == r;
        }
      }
    }
  }

  /** How often a row is answered: as often as its state was asked for. */
  lemma {:induction false} QueriedTimes<B, S>(t: Table<B>, stateOf: Record<B> -> S, wanted: seq<S>, id: string)
    requires id in t && DistinctValues(t)
    ensures Queried(t, stateOf, wanted)[t[id]] == multiset(wanted)[stateOf(t[id])]
  {
    if wanted == [] {
    } else {
      var n := |wanted| - 1;
      QueriedTimes(t, stateOf, wanted[..n], id);
      assert wanted == wanted[..n] + [wanted[n]];
      assert t[id] in InState(t, stateOf, wanted[n]) <==> stateOf(t[id]) == wanted[n];
    }
  }

  lemma {:induction false} AskedOnce<S>(wanted: seq<S>, s: S)
    ensures multiset(wanted)[s] <= 1 <==>
      forall i, j | 0 <= i < j < |wanted| && wanted[i] == wanted[j] :: wanted[i] != s
  {
    if wanted == [] {
    } else {
      var n := |wanted| - 1;
      assert wanted == wanted[..n] + [wanted[n]];
      AskedOnce(wanted[..n], s);
      if wanted[n] == s && s in wanted[..n] {
        var i :| 0 <= i < n && wanted[i] == s;
        assert wanted[i] == wanted[n];
      }
      if wanted[n] == s && s !in wanted[..n] {
        assert multiset(wanted[..n])[s] == 0;
        forall i, j | 0 <= i < j < |wanted| && wanted[i] == wanted[j] ensures wanted[i] != s {
          assert wanted[i] in wanted[..n];
        }
      }
      if wanted[n] != s {
        assert multiset(wanted)[s] == multiset(wanted[..n])[s];
      }
    }
  }

  /**
   The state index answers what the memory repository's filter answers exactly when no wanted state repeats in
   vain.
   */
  lemma StateIndexAgreesIff<B(!new), S>(t: Table<B>, stateOf: Record<B> -> S, wanted: seq<S>)
    requires wanted != [] && forall id | id in t :: t[id].id == id
    ensures Queried(t, stateOf, wanted) == multiset(InStates(t, stateOf, wanted)) <==>
      NoneAskedTwice(t, stateOf, wanted)
  {
    var asked, kept := Queried(t, stateOf, wanted), multiset(InStates(t, stateOf, wanted));
    if NoneAskedTwice(t, stateOf, wanted) {
      forall r ensures asked[r] == kept[r] {
        RowCounts(t, stateOf, wanted, r);
      }
    } else {
      var i, j, id :| 0 <= i < j < |wanted| && wanted[i] == wanted[j] && id in t && stateOf(t[id]) == wanted[i];
      AskedOnce(wanted, wanted[i]);
      QueriedTimes(t, stateOf, wanted, id);
      assert kept[t[id]] <= 1;
    }
  }

  lemma RowCounts<B(!new), S>(t: Table<B>, stateOf: Record<B> -> S, wanted: seq<S>, r: Record<B>)
    requires wanted != [] && (forall id | id in t :: t[id].id == id) && NoneAskedTwice(t, stateOf, wanted)
    ensures Queried(t, stateOf, wanted)[r] == multiset(InStates(t, stateOf, wanted))[r]
  {
    QueriedRowsAreRows(t, stateOf, wanted, r);
    if r in t.Values && stateOf(r) in wanted {
      var id :| id in t && t[id] == r;
      QueriedTimes(t, stateOf, wanted, id);
      AskedOnce(wanted, stateOf(r));
      assert r in InStates(t, stateOf, wanted);
    } else {
      assert r !in InStates(t, stateOf, wanted);
    }
  }

  // ---------------------------------------------------------------- the expiry index

  /** Times count nanoseconds from 0001-01-01; Unix counts whole seconds from 1970, rounding down. */
  const NANOS := 1_000_000_000

  const EPOCH := 62135596800

  function Unix(t: Time): int {
    t / NANOS - EPOCH
  }

  /** fmt.Sprintf("%020d", n) */
  function Padded20(n: int): string {
    if n >= 0 then Padded(n, 20) else "-" + Padded(-n, 19)
  }

  function ExpiryKey(t: Time, suffix: string): string {
    Padded20(Unix(t)) + "#" + suffix
  }

  /** The key condition gsi2sk <= expiryKey(now, "~"). */
  predicate InRange(t: Time, id: string, now: Time) {
    !StringLess(ExpiryKey(now, "~"), ExpiryKey(t, id))
  }

  predicate Representable(t: Time) {
    Unix(t) < Pow10(20)
  }

  lemma PaddedStart(n: nat, width: nat)
    requires width > 0
    ensures |Padded(n, width)| == width && forall c | c in Padded(n, width) :: c >= '0'
  {
    if width > 1 {
      PaddedStart(n / 10, width - 1);
    }
  }

  lemma BeforeTheEpoch(t: Time, id: string, now: Time)
    requires Unix(t) < 0 <= Unix(now)
    ensures InRange(t, id, now)
  {
    PaddedStart(Unix(now), 20);
    var a, b := ExpiryKey(now, "~"), ExpiryKey(t, id);
    assert a[0] == Padded(Unix(now), 20)[0] && Padded(Unix(now), 20)[0] in Padded(Unix(now), 20);
    assert b[0] == '-';
  }

  /**
   What the string range means: earlier seconds, and in the same second the ids up to "~"; times before 1970
   always.
   */
  lemma RangeMeans(t: Time, id: string, now: Time)
    requires Unix(now) >= 0 && Representable(t) && Representable(now)
    ensures InRange(t, id, now) <==> Unix(t) < Unix(now) || (Unix(t) == Unix(now) && !StringLess("~", id))
  {
    if Unix(t) < 0 {
      BeforeTheEpoch(t, id, now);
    } else {
      var a, b := Padded(Unix(now), 20), Padded(Unix(t), 20);
      PaddedLength(Unix(now), 20);
      PaddedLength(Unix(t), 20);
      PaddedOrder(Unix(now), Unix(t), 20);
      assert ExpiryKey(now, "~") == a + ("#" + "~") && ExpiryKey(t, id) == b + ("#" + id);
      StringLessSplits(a, b, "#" + "~", "#" + id);
      StringLessSplits("#", "#", "~", id);
      StringLessTotal("#", "#");
    }
  }

  /** The expiry is set and, within the second of `now`, the id and the fraction of the second do not mislead. */
  predicate Comparable(t: Time, id: string, now: Time) {
    t != NO_TIME && (Unix(t) == Unix(now) ==> (!StringLess("~", id) <==> t <= now))
  }

  /** The range query finds a record exactly as the numeric filter does if and only if its expiry is comparable. */
  lemma ExpiryIndexAgreesIff(t: Time, id: string, now: Time)
    requires Unix(now) >= 0 && Representable(t) && Representable(now)
    ensures (InRange(t, id, now) <==> Due(t, now)) <==> Comparable(t, id, now)
  {
    RangeMeans(t, id, now);
    assert t <= now ==> t / NANOS <= now / NANOS;
  }

  /** Whole-second expiries with ids up to "~" always are; an unset expiry never is and is always listed. */
  lemma WholeSecondsAreComparable(t: Time, id: string, now: Time)
    requires Unix(now) >= 0
    ensures t != NO_TIME && t % NANOS == 0 && !StringLess("~", id) ==> Comparable(t, id, now)
    ensures !Comparable(NO_TIME, id, now) && (Representable(now) ==> InRange(NO_TIME, id, now))
  {
    if Representable(now) {
      BeforeTheEpoch(NO_TIME, id, now);
    }
  }

  method KeepLive<R>(raw: seq<R>, live: R -> bool) returns (found: seq<R>)
    ensures forall r :: multiset(found)[r] == if live(r) then multiset(raw)[r] else 0
  {
    found := [];
    for i := 0 to |raw|
      invariant forall r :: multiset(found)[r] == if live(r) then multiset(raw[..i])[r] else 0
    {
      assert raw[..i + 1] == raw[..i] + [raw[i]];
      if live(raw[i]) {
        found := found + [raw[i]];
      }
    }
    assert raw[..|raw|] == raw;
  }

  lemma LiveInRange<B(!new)>(t: Table<B>, ranged: Record<B> -> bool, both: Record<B> -> bool, live: Record<B> -> bool,
                            raw: seq<Record<B>>, found: seq<Record<B>>)
    requires forall r :: both(r) <==> ranged(r) && live(r)
    requires multiset(raw) == multiset(Kept(t, ranged, t.Keys))
    requires forall r :: multiset(found)[r] == if live(r) then multiset(raw)[r] else 0
    ensures multiset(found) == multiset(Kept(t, both, t.Keys))
  {
    var wide, narrow := Kept(t, ranged, t.Keys), Kept(t, both, t.Keys);
    forall r ensures multiset(found)[r] == multiset(narrow)[r] {
      assert r in narrow <==> r in wide && live(r);
    }
  }

  /** ListExpiredJobs, ListExpiredRunners and ListExpiredLeases: the pages of the range query, live records only. */
  method ListExpired<B(!new)>(t: Table<B>, expiry: Record<B> -> Time, live: Record<B> -> bool, now: Time,
      pages: seq<seq<Record<B>>>)
    returns (out: seq<Record<B>>)
    requires forall id | id in t :: t[id].id == id
    requires multiset(Flatten(pages)) == multiset(Kept(t, r => InRange(expiry(r), r.id, now), t.Keys))
    ensures IsListing(t, r => InRange(expiry(r), r.id, now) && live(r), out)
  {
    var raw := ReadPages(pages);
    var found := KeepLive(raw, live);
    LiveInRange(t, r => InRange(expiry(r), r.id, now), r => InRange(expiry(r), r.id, now) && live(r), live, raw, found);
    out := Sort(ByID, found);
    ByIDStrictTotal(multiset(found));
    SortKeeps(ByID, found);
    SortOrders(ByID, found);
  }

  /** The whole listing is the memory repository's exactly when every live record's expiry is comparable. */
  lemma ExpiryListingAgreesIff<B>(t: Table<B>, expiry: Record<B> -> Time, live: Record<B> -> bool, now: Time)
    requires Unix(now) >= 0 && Representable(now) && forall id | id in t ::
      t[id].id == id && Representable(expiry(t[id]))
    ensures Kept(t, r => InRange(expiry(r), r.id, now) && live(r), t.Keys) ==
      Kept(t, r => Due(expiry(r), now) && live(r), t.Keys)
      <==> forall id | id in t && live(t[id]) :: Comparable(expiry(t[id]), id, now)
  {
    var ranged := Kept(t, r => InRange(expiry(r), r.id, now) && live(r), t.Keys);
    var due := Kept(t, r => Due(expiry(r), now) && live(r), t.Keys);
    hide InRange, Due, Comparable, Unix;
    forall id | id in t
      ensures t[id] in ranged <==> InRange(expiry(t[id]), id, now) && live(t[id])
      ensures t[id] in due <==> Due(expiry(t[id]), now) && live(t[id])
      ensures (InRange(expiry(t[id]), id, now) <==> Due(expiry(t[id]), now)) <==> Comparable(expiry(t[id]), id, now)
    {
      ExpiryIndexAgreesIff(expiry(t[id]), id, now);
    }
    if id :| id in t && live(t[id]) && !Comparable(expiry(t[id]), id, now) {
      assert t[id] in ranged <==> t[id] !in due;
    }
  }
}
