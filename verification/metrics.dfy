/**
 The Prometheus exporter's accounting (controller/internal/observability/prometheus/prometheus.go). Metric and
 label names are taken as already sanitized; sample values are reals.
 */
module Metrics {
  import opened Common
  import opened Ordering

  datatype MetricType = Counter | Gauge | Histogram

  datatype MetricError = InvalidMetric | SeriesLimit | LabelValueLimit

  type Labels = map<string, string>

  datatype Pair = Pair(name: string, value: string)

  /** `seen` is a history: every value observed into this series. */
  datatype Series = Series(labels: seq<Pair>, counter: real, gauge: real, buckets: seq<nat>, sum: real, count: nat,
    seen: seq<real>)

  datatype Family = Family(typeName: MetricType, help: string, labelNames: seq<string>, series: map<string, Series>)

  type Families = map<string, Family>

  /** What one update does to its series. */
  datatype Change = AddToCounter(delta: real) | SetTo(value: real) | AddToGauge(delta: real) | Observed(value: real)

  function TypeOf(c: Change): MetricType {
    match c
    case AddToCounter(_) => Counter
    case SetTo(_) => Gauge
    case AddToGauge(_) => Gauge
    case Observed(_) => Histogram
  }

  /** One metric takes one kind of change; only setting and adjusting a gauge go together. */
  lemma TypesTellKindsApart(a: Change, b: Change)
    ensures TypeOf(a) == TypeOf(b) <==>
      || (a.AddToCounter? && b.AddToCounter?) || (a.Observed? && b.Observed?)
      || ((a.SetTo? || a.AddToGauge?) && (b.SetTo? || b.AddToGauge?))
  {
  }

  predicate Proper(c: Change) {
    (c.AddToCounter? ==> c.delta >= 0.0) && (c.Observed? ==> c.value >= 0.0)
  }

  // ---------------------------------------------------------------- histograms

  predicate Increasing(bounds: seq<real>) {
    forall i, j | 0 <= i < j < |bounds| :: bounds[i] < bounds[j]
  }

  /** The first bucket whose bound is not below the value. */
  function BucketOf(bounds: seq<real>, value: real): (i: nat)
    ensures i <= |bounds|
    ensures forall j | 0 <= j < i :: bounds[j] < value
    ensures i < |bounds| ==> value <= bounds[i]
  {
    if bounds == [] || value <= bounds[0] then 0 else BucketOf(bounds[1..], value) + 1
  }

  function CountIn(bounds: seq<real>, seen: seq<real>, i: nat): nat {
    if seen == [] then 0
    else CountIn(bounds, seen[..|seen| - 1], i) + if BucketOf(bounds, seen[|seen| - 1]) == i then 1 else 0
  }

  /** How many observations are at or below a bound. */
  function AtMost(seen: seq<real>, bound: real): nat {
    if seen == [] then 0 else AtMost(seen[..|seen| - 1], bound) + if seen[|seen| - 1] <= bound then 1 else 0
  }

  function Sum(seen: seq<real>): real {
    if seen == [] then 0.0 else Sum(seen[..|seen| - 1]) + seen[|seen| - 1]
  }

  function CountUpTo(bounds: seq<real>, seen: seq<real>, n: nat): nat {
    if n == 0 then 0 else CountUpTo(bounds, seen, n - 1) + CountIn(bounds, seen, n - 1)
  }

  ghost predicate Tallied(bounds: seq<real>, s: Series) {
    && |s.buckets| == |bounds| && s.count == |s.seen| && s.sum == Sum(s.seen)
    && forall i | 0 <= i < |bounds| :: s.buckets[i] == CountIn(bounds, s.seen, i)
  }

  lemma {:induction false} CountsSplit(bounds: seq<real>, seen: seq<real>, n: nat)
    requires seen != []
    ensures CountUpTo(bounds, seen, n) ==
      CountUpTo(bounds, seen[..|seen| - 1], n) + if BucketOf(bounds, seen[|seen| - 1]) < n then 1 else 0
  {
    if n == 0 {
    } else {
      CountsSplit(bounds, seen, n - 1);
    }
  }

  lemma {:induction false} NothingCounted(bounds: seq<real>, n: nat)
    ensures CountUpTo(bounds, [], n) == 0
  {
    if n == 0 {
    } else {
      NothingCounted(bounds, n - 1);
    }
  }

  /** The buckets up to a bound hold exactly the observations at or below it. */
  lemma {:induction false} CumulativeIsAtMost(bounds: seq<real>, seen: seq<real>, n: nat)
    requires Increasing(bounds) && n < |bounds|
    ensures CountUpTo(bounds, seen, n + 1) == AtMost(seen, bounds[n])
  {
    if seen == [] {
      NothingCounted(bounds, n + 1);
    } else {
      CountsSplit(bounds, seen, n + 1);
      CumulativeIsAtMost(bounds, seen[..|seen| - 1], n);
      var v := seen[|seen| - 1];
      assert BucketOf(bounds, v) <= n <==> v <= bounds[n];
    }
  }

  function NewSeries(labels: seq<Pair>, typ: MetricType, bounds: seq<real>): Series {
    Series(labels, 0.0, 0.0, if typ.Histogram? then seq(|bounds|, i => 0) else [], 0.0, 0, [])
  }

  function Applied(s: Series, c: Change, bounds: seq<real>): Series {
    match c
    case AddToCounter(d) => s.(counter := s.counter + d)
    case SetTo(v) => s.(gauge := v)
    case AddToGauge(d) => s.(gauge := s.gauge + d)
    case Observed(v) =>
      var i := BucketOf(bounds, v);
      s.(sum := s.sum + v, count := s.count + 1, seen := s.seen + [v],
         buckets := if i < |s.buckets| then s.buckets[i := s.buckets[i] + 1] else s.buckets)
  }

  function AppliedAll(s: Series, cs: seq<Change>, bounds: seq<real>): Series {
    if cs == [] then s else Applied(AppliedAll(s, cs[..|cs| - 1], bounds), cs[|cs| - 1], bounds)
  }

  function Increments(cs: seq<Change>): real {
    if cs == [] then 0.0
    else Increments(cs[..|cs| - 1]) + if cs[|cs| - 1].AddToCounter? then cs[|cs| - 1].delta else 0.0
  }

  function Adjustments(cs: seq<Change>): real {
    if cs == [] then 0.0
    else Adjustments(cs[..|cs| - 1]) + if cs[|cs| - 1].AddToGauge? then cs[|cs| - 1].delta else 0.0
  }

  /** A counter is the sum of its increments, and never falls. */
  lemma {:induction false} CounterIsSum(s: Series, cs: seq<Change>, bounds: seq<real>)
    ensures AppliedAll(s, cs, bounds).counter == s.counter + Increments(cs)
    ensures (forall c | c in cs :: Proper(c)) ==> AppliedAll(s, cs, bounds).counter >= s.counter
  {
    if cs == [] {
    } else {
      var n := |cs| - 1;
      assert cs[n] in cs && forall c | c in cs[..n] :: c in cs;
      CounterIsSum(s, cs[..n], bounds);
    }
  }

  /** A gauge is the value it was last set to, plus every adjustment since. */
  lemma {:induction false} GaugeIsLastPlusSince(s: Series, before: seq<Change>, v: real, since: seq<Change>,
      bounds: seq<real>)
    requires forall c | c in since :: !c.SetTo?
    ensures AppliedAll(s, before + [SetTo(v)] + since, bounds).gauge == v + Adjustments(since)
    decreases |since|
  {
    var cs := before + [SetTo(v)] + since;
    if since == [] {
      assert cs[..|cs| - 1] == before;
    } else {
      var n := |since| - 1;
      assert cs[..|cs| - 1] == before + [SetTo(v)] + since[..n];
      assert since[n] in since && forall c | c in since[..n] :: c in since;
      GaugeIsLastPlusSince(s, before, v, since[..n], bounds);
    }
  }

  lemma ObservingTallies(s: Series, v: real, bounds: seq<real>)
    requires Tallied(bounds, s)
    ensures Tallied(bounds, Applied(s, Observed(v), bounds))
  {
    assert (s.seen + [v])[..|s.seen|] == s.seen;
  }

  /** The closure of Observe. */
  method Apply(s: Series, c: Change, bounds: seq<real>) returns (r: Series)
    requires c.Observed? ==> |s.buckets| == |bounds|
    ensures r == Applied(s, c, bounds)
  {
    match c
    case AddToCounter(d) => r := s.(counter := s.counter + d);
    case SetTo(v) => r := s.(gauge := v);
    case AddToGauge(d) => r := s.(gauge := s.gauge + d);
    case Observed(v) =>
      r := s.(sum := s.sum + v, count := s.count + 1, seen := s.seen + [v]);
      for i := 0 to |bounds|
        invariant r == s.(sum := s.sum + v, count := s.count + 1, seen := s.seen + [v])
        invariant forall j | 0 <= j < i :: bounds[j] < v
      {
        if v <= bounds[i] {
          assert BucketOf(bounds, v) == i;
          r := r.(buckets := r.buckets[i := r.buckets[i] + 1]);
          return;
        }
      }
  }

  /** The histogram part of Gather: what a scrape shows is the number of observations at or below each bound. */
  method GatherHistogram(s: Series, bounds: seq<real>) returns (samples: seq<nat>, inf: nat)
    requires Increasing(bounds) && Tallied(bounds, s)
    ensures |samples| == |bounds| && forall i | 0 <= i < |bounds| :: samples[i] == AtMost(s.seen, bounds[i])
    ensures inf == |s.seen|
  {
    var cumulative := 0;
    samples := [];
    for i := 0 to |bounds|
      invariant |samples| == i && cumulative == CountUpTo(bounds, s.seen, i)
      invariant forall j | 0 <= j < i :: samples[j] == AtMost(s.seen, bounds[j])
    {
      cumulative := cumulative + s.buckets[i];
      CumulativeIsAtMost(bounds, s.seen, i);
      samples := samples + [cumulative];
    }
    inf := s.count;
  }

  predicate RealLess(a: real, b: real) {
    a < b
  }

  /** normalizeBuckets: the non-negative bounds, each once, ascending. */
  method NormalizeBuckets(values: seq<real>) returns (bounds: seq<real>)
    ensures Increasing(bounds)
    ensures forall x :: x in bounds <==> x in values && x >= 0.0
  {
    var kept := [];
    for i := 0 to |values|
      invariant forall x :: x in kept <==> x in values[..i] && x >= 0.0
    {
      if values[i] >= 0.0 {
        kept := kept + [values[i]];
      }
    }
    assert values[..|values|] == values;
    var sorted := Sort(RealLess, kept);
    SortKeeps(RealLess, kept);
    SortOrders(RealLess, kept);
    forall i, j | 0 <= i < j < |sorted| ensures sorted[i] <= sorted[j] {
      OrderedSteps(RealLess, sorted, i, j);
    }
    bounds := EachOnce(sorted);
  }

  method EachOnce(sorted: seq<real>) returns (unique: seq<real>)
    requires forall i, j | 0 <= i < j < |sorted| :: sorted[i] <= sorted[j]
    ensures Increasing(unique) && forall x :: x in unique <==> x in sorted
  {
    unique := [];
    for i := 0 to |sorted|
      invariant Increasing(unique)
      invariant forall x :: x in unique <==> x in sorted[..i]
      invariant forall j | 0 <= j < |unique| :: unique[j] <= unique[|unique| - 1]
      invariant i == 0 ==> unique == []
      invariant i > 0 ==> unique != [] && unique[|unique| - 1] == sorted[i - 1]
    {
      if |unique| == 0 || unique[|unique| - 1] != sorted[i] {
        if i > 0 {
          assert sorted[i - 1] < sorted[i];
          assert forall j | 0 <= j < |unique| :: unique[j] < sorted[i];
        }
        unique := unique + [sorted[i]];
      }
    }
    assert sorted[..|sorted|] == sorted;
  }

  lemma {:induction false} OrderedSteps<T(!new)>(less: (T, T) -> bool, s: seq<T>, i: nat, j: nat)
    requires Ordered(less, s) && i < j < |s|
    ensures !less(s[j], s[i])
  {
    if i == 0 {
      assert s[j] in s[1..];
    } else {
      OrderedSteps(less, s[1..], i - 1, j - 1);
    }
  }

  // ---------------------------------------------------------------- series keys

  /** canonicalLabels: one "name=value" and a NUL for each label name of the family. */
  function KeyText(pairs: seq<Pair>): string {
    if pairs == [] then [] else pairs[0].name + "=" + pairs[0].value + [0 as char] + KeyText(pairs[1..])
  }

  function Canonical(names: seq<string>, labels: Labels): seq<Pair> {
    seq(|names|, i requires 0 <= i < |names| => Pair(names[i], if names[i] in labels then labels[names[i]] else ""))
  }

  const NUL: char := 0 as char

  /** What stands between a value and the value of the next label. */
  function Separator(name: string): string {
    [NUL] + name + "="
  }

  predicate OccursAt(s: string, t: string, k: int) {
    0 <= k && k + |t| <= |s| && s[k..k + |t|] == t
  }

  ghost predicate Contains(s: string, t: string) {
    exists k :: OccursAt(s, t, k)
  }

  /** Label sets of one family; sanitized names hold no NUL. */
  predicate SameNames(p: seq<Pair>, q: seq<Pair>) {
    |p| == |q| && forall i | 0 <= i < |p| :: p[i].name == q[i].name && NUL !in p[i].name
  }

  /** No value but the last contains the separator that follows it. */
  ghost predicate Clean(p: seq<Pair>) {
    forall i | 0 <= i < |p| - 1 :: !Contains(p[i].value, Separator(p[i + 1].name))
  }

  /** The separator behind label i also occurs in the value before it or in the value behind it. */
  ghost predicate Movable(p: seq<Pair>, i: nat)
    requires i < |p| - 1
  {
    Contains(p[i].value, Separator(p[i + 1].name)) || Contains(p[i + 1].value, Separator(p[i + 1].name))
  }

  ghost predicate Mergeable(p: seq<Pair>) {
    exists i :: 0 <= i < |p| - 1 && Movable(p, i)
  }

  /** The key from the first value on. */
  function Tail(p: seq<Pair>): string
    requires p != []
  {
    p[0].value + [NUL] + KeyText(p[1..])
  }

  lemma KeyUnfolds(p: seq<Pair>)
    requires p != []
    ensures KeyText(p) == p[0].name + "=" + Tail(p)
  {
    var h, v, rest := p[0].name + "=", p[0].value, KeyText(p[1..]);
    assert h + v + [NUL] + rest == h + (v + [NUL] + rest);
  }

  lemma Regroup(v: string, z: string, n: string, e: string, rest: string)
    ensures v + z + (n + e + rest) == v + (z + n + e) + rest
  {
  }

  lemma TailUnfolds(p: seq<Pair>)
    requires p != []
    ensures KeyText(p) == p[0].name + "=" + Tail(p)
    ensures |p| > 1 ==> Tail(p) == p[0].value + Separator(p[1].name) + Tail(p[1..])
  {
    KeyUnfolds(p);
    if |p| > 1 {
      var q := p[1..];
      KeyUnfolds(q);
      Regroup(p[0].value, [NUL], p[1].name, "=", Tail(q));
      assert Tail(p) == p[0].value + [NUL] + KeyText(q);
      hide KeyText, Tail;
    }
  }

  lemma SameHead(h: string, x: string, y: string)
    requires h + x == h + y
    ensures x == y
  {
    assert (h + x)[|h|..] == x && (h + y)[|h|..] == y;
  }

  /** Two occurrences of a separator do not overlap, so the later one lies in what follows the earlier one. */
  lemma LaterSeparator(name: string, v: string, x: string, w: string, y: string) returns (z: string)
    requires v + Separator(name) + x == w + Separator(name) + y && |v| < |w| && NUL !in name
    ensures w == v + Separator(name) + z && x == z + Separator(name) + y
  {
    var sep := Separator(name);
    var t := v + sep + x;
    assert t == w + sep + y;
    assert forall k | 0 < k < |sep| :: sep[k] != NUL;
    assert forall k | 0 <= k < |sep| :: t[|v| + k] == sep[k];
    assert t[|w|] == NUL && |w| == |v| + (|w| - |v|);
    assert |v| + |sep| <= |w|;
    z := w[|v| + |sep|..];
    assert w == t[..|w|] && v == t[..|v|];
    assert t[|v|..|v| + |sep|] == sep;
    assert w == v + sep + z;
    assert t == v + sep + (z + sep + y);
    SameHead(v + sep, x, z + sep + y);
  }

  lemma ContainsInside(v: string, name: string, z: string)
    ensures Contains(v + Separator(name) + z, Separator(name))
  {
    assert OccursAt(v + Separator(name) + z, Separator(name), |v|);
  }

  lemma MergeableRest(p: seq<Pair>)
    requires |p| > 1 && (Mergeable(p[1..]) || Movable(p, 0))
    ensures Mergeable(p)
  {
    if !Movable(p, 0) {
      var i :| 0 <= i < |p[1..]| - 1 && Movable(p[1..], i);
      assert Movable(p, i + 1);
    }
  }

  /** If another reading of the same text starts the first value later, some separator can be moved. */
  lemma {:induction false} LaterReading(p: seq<Pair>, q: seq<Pair>, z: string)
    requires p != [] && SameNames(p, q) && Tail(p) == z + Separator(p[0].name) + Tail(q)
    ensures Contains(p[0].value, Separator(p[0].name)) || Mergeable(p)
  {
    var sep, v := Separator(p[0].name), p[0].value;
    var b := z + sep + q[0].value;
    if |p| == 1 {
      assert Tail(p) == v + [NUL] && Tail(q) == q[0].value + [NUL];
      assert v + [NUL] == b + [NUL];
      assert v == (v + [NUL])[..|v|] && b == (b + [NUL])[..|b|];
      ContainsInside(z, p[0].name, q[0].value);
    } else {
      var next := p[1].name;
      TailUnfolds(p);
      TailUnfolds(q);
      assert v + Separator(next) + Tail(p[1..]) == b + Separator(next) + Tail(q[1..]);
      if |v| < |b| {
        var later := LaterSeparator(next, v, Tail(p[1..]), b, Tail(q[1..]));
        LaterReading(p[1..], q[1..], later);
        MergeableRest(p);
      } else {
        var text := v + Separator(next) + Tail(p[1..]);
        assert text[|z|..|z| + |sep|] == sep;
        assert v == text[..|v|];
        assert v[|z|..|z| + |sep|] == sep;
        assert OccursAt(v, sep, |z|);
      }
    }
  }

  lemma CleanRest(p: seq<Pair>)
    requires p != [] && Clean(p)
    ensures Clean(p[1..])
  {
    forall i | 0 <= i < |p[1..]| - 1 ensures !Contains(p[1..][i].value, Separator(p[1..][i + 1].name)) {
      assert p[1..][i] == p[i + 1] && p[1..][i + 1] == p[i + 2];
    }
  }

  lemma SameValueFirst(p: seq<Pair>, q: seq<Pair>)
    requires p != [] && SameNames(p, q) && Tail(p) == Tail(q) && |p[0].value| == |q[0].value|
    ensures KeyText(p[1..]) == KeyText(q[1..]) && p[0] == q[0]
  {
    var v, w := p[0].value, q[0].value;
    assert v == Tail(p)[..|v|] && w == Tail(q)[..|w|];
    assert KeyText(p[1..]) == Tail(p)[|v| + 1..] && KeyText(q[1..]) == Tail(q)[|w| + 1..];
  }

  /** When different label sets share a key, a separator can be moved, and one of the two is not clean. */
  lemma {:induction false} SharingNeedsSeparator(p: seq<Pair>, q: seq<Pair>)
    requires SameNames(p, q) && KeyText(p) == KeyText(q) && p != q
    ensures Mergeable(p) && (!Clean(p) || !Clean(q))
  {
    TailUnfolds(p);
    TailUnfolds(q);
    SameHead(p[0].name + "=", Tail(p), Tail(q));
    var v, w := p[0].value, q[0].value;
    assert p == [p[0]] + p[1..] && q == [q[0]] + q[1..];
    assert |Tail(p)| == |v| + 1 + |KeyText(p[1..])| && |Tail(q)| == |w| + 1 + |KeyText(q[1..])|;
    if |v| == |w| {
      SameValueFirst(p, q);
      SharingNeedsSeparator(p[1..], q[1..]);
      MergeableRest(p);
      if Clean(p) && Clean(q) {
        CleanRest(p);
        CleanRest(q);
      }
    } else {
      DifferentReadings(p, q);
    }
  }

  lemma DifferentReadings(p: seq<Pair>, q: seq<Pair>)
    requires |p| > 1 && SameNames(p, q) && Tail(p) == Tail(q) && |p[0].value| != |q[0].value|
    ensures Mergeable(p) && (!Clean(p) || !Clean(q))
  {
    TailUnfolds(p);
    TailUnfolds(q);
    var v, w, next, x, y := p[0].value, q[0].value, p[1].name, Tail(p[1..]), Tail(q[1..]);
    if |v| < |w| {
      var z := LaterSeparator(next, v, x, w, y);
      ContainsInside(v, next, z);
      LaterReading(p[1..], q[1..], z);
      MergeableRest(p);
      assert Contains(q[0].value, Separator(q[0 + 1].name));
    } else {
      var z := LaterSeparator(next, w, y, v, x);
      ContainsInside(w, next, z);
      assert Contains(p[0].value, Separator(p[0 + 1].name));
      assert Movable(p, 0);
    }
  }

  /** Within a family two clean label sets share a series exactly when they are equal. */
  lemma KeysTellSeriesApart(p: seq<Pair>, q: seq<Pair>)
    requires SameNames(p, q) && Clean(p) && Clean(q)
    ensures KeyText(p) == KeyText(q) <==> p == q
  {
    if KeyText(p) == KeyText(q) && p != q {
      SharingNeedsSeparator(p, q);
    }
  }

  /** The label set with other values at i and behind it. */
  function Revalued(p: seq<Pair>, i: nat, v: string, w: string): seq<Pair>
    requires i < |p| - 1
  {
    p[i := Pair(p[i].name, v)][i + 1 := Pair(p[i + 1].name, w)]
  }

  lemma Regroup3(x: string, sep: string, y: string, w: string, rest: string)
    ensures x + sep + (y + sep + w + rest) == x + sep + y + sep + (w + rest)
  {
  }

  lemma MovingAtTheFront(p: seq<Pair>, x: string, y: string, w: string)
    requires |p| > 1
    ensures var sep := Separator(p[1].name);
      Tail(Revalued(p, 0, x, y + sep + w)) == Tail(Revalued(p, 0, x + sep + y, w))
  {
    var sep, rest := Separator(p[1].name), [NUL] + KeyText(p[2..]);
    var a, b := Revalued(p, 0, x, y + sep + w), Revalued(p, 0, x + sep + y, w);
    TailUnfolds(a);
    TailUnfolds(b);
    assert a[1..][1..] == p[2..] && b[1..][1..] == p[2..];
    assert Tail(a[1..]) == y + sep + w + [NUL] + KeyText(p[2..]) == y + sep + w + rest;
    assert Tail(b[1..]) == w + [NUL] + KeyText(p[2..]) == w + rest;
    Regroup3(x, sep, y, w, rest);
    hide KeyText, Tail, Separator, Revalued;
  }

  /** A separator inside a value can be read as the real one. */
  lemma {:induction false} MovingKeepsTheKey(p: seq<Pair>, i: nat, x: string, y: string, w: string)
    requires i < |p| - 1
    ensures var sep := Separator(p[i + 1].name);
      KeyText(Revalued(p, i, x, y + sep + w)) == KeyText(Revalued(p, i, x + sep + y, w))
  {
    var sep := Separator(p[i + 1].name);
    var a, b := Revalued(p, i, x, y + sep + w), Revalued(p, i, x + sep + y, w);
    KeyUnfolds(a);
    KeyUnfolds(b);
    if i == 0 {
      MovingAtTheFront(p, x, y, w);
    } else {
      MovingKeepsTheKey(p[1..], i - 1, x, y, w);
      assert a[1..] == Revalued(p[1..], i - 1, x, y + sep + w);
      assert b[1..] == Revalued(p[1..], i - 1, x + sep + y, w);
    }
    hide KeyText, Separator;
  }

  lemma SplitAt(s: string, sep: string, k: nat)
    requires OccursAt(s, sep, k)
    ensures s == s[..k] + sep + s[k + |sep|..]
  {
  }

  /** The other reading of a label set whose separator behind i can be moved. */
  lemma PartnerOf(p: seq<Pair>, i: nat) returns (q: seq<Pair>)
    requires SameNames(p, p) && i < |p| - 1 && Movable(p, i)
    ensures SameNames(p, q) && q != p && KeyText(q) == KeyText(p)
  {
    var sep, v, w := Separator(p[i + 1].name), p[i].value, p[i + 1].value;
    if Contains(v, sep) {
      var k :| OccursAt(v, sep, k);
      SplitAt(v, sep, k);
      var x, y := v[..k], v[k + |sep|..];
      assert p == Revalued(p, i, x + sep + y, w);
      MovingKeepsTheKey(p, i, x, y, w);
      q := Revalued(p, i, x, y + sep + w);
      assert |q[i].value| < |p[i].value|;
    } else {
      var k :| OccursAt(w, sep, k);
      SplitAt(w, sep, k);
      var x, y := w[..k], w[k + |sep|..];
      assert p == Revalued(p, i, v, x + sep + y);
      MovingKeepsTheKey(p, i, v, x, y);
      q := Revalued(p, i, v + sep + x, y);
      assert |q[i].value| > |p[i].value|;
    }
  }

  /** A label set that is not clean shares its key with another one of its family. */
  lemma UncleanIsShared(p: seq<Pair>) returns (q: seq<Pair>)
    requires SameNames(p, p) && !Clean(p)
    ensures SameNames(p, q) && q != p && KeyText(q) == KeyText(p)
  {
    var i :| 0 <= i < |p| - 1 && Contains(p[i].value, Separator(p[i + 1].name));
    q := PartnerOf(p, i);
  }

  /** A label set shares its key with another one exactly when some separator also occurs in a value next to it. */
  lemma SharesItsKeyIff(p: seq<Pair>)
    requires SameNames(p, p)
    ensures (exists q :: SameNames(p, q) && q != p && KeyText(q) == KeyText(p)) <==> Mergeable(p)
  {
    if Mergeable(p) {
      var i :| 0 <= i < |p| - 1 && Movable(p, i);
      var q := PartnerOf(p, i);
      assert SameNames(p, q) && q != p && KeyText(q) == KeyText(p);
    } else {
      forall q | SameNames(p, q) && KeyText(q) == KeyText(p) ensures q == p {
        if q != p {
          SharingNeedsSeparator(p, q);
        }
      }
    }
  }

  /** Two label sets that share a series. */
  lemma NULMergesSeries()
    ensures var z := [0 as char];
      var p, q := [Pair("a", "x" + z + "b=y"), Pair("b", "z")], [Pair("a", "x"), Pair("b", "y" + z + "b=z")];
      p != q && KeyText(p) == KeyText(q)
  {
    var z := [0 as char];
    var p, q := [Pair("a", "x" + z + "b=y"), Pair("b", "z")], [Pair("a", "x"), Pair("b", "y" + z + "b=z")];
    assert p[0].value[1] == 0 as char;
    assert |p[0].value| == 5 && |q[0].value| == 1;
    assert KeyText(p[1..]) == "b=z" + z by {
      assert p[1..][1..] == [];
    }
    assert KeyText(q[1..]) == "b=y" + z + "b=z" + z by {
      assert q[1..][1..] == [];
    }
    assert KeyText(p) == "a=x" + z + "b=y" + z + "b=z" + z;
    assert KeyText(q) == "a=x" + z + "b=y" + z + "b=z" + z;
  }

  // ---------------------------------------------------------------- the exporter

  /** Every exposed series, by metric and key: its size is the sum over the families. */
  ghost function Exposed(families: Families): set<(string, string)> {
    set n, k | n in families && k in families[n].series :: (n, k)
  }

  type Values = map<string, map<string, set<string>>>

  function ValuesOf(values: Values, metric: string, name: string): set<string> {
    if metric in values && name in values[metric] then values[metric][name] else {}
  }

  predicate Admits(values: Values, metric: string, pairs: seq<Pair>, limit: int) {
    forall i | 0 <= i < |pairs| ::
      pairs[i].value in ValuesOf(values, metric, pairs[i].name) || |ValuesOf(values, metric, pairs[i].name)| < limit
  }

  predicate DistinctNames(names: seq<string>) {
    forall i, j | 0 <= i < j < |names| :: names[i] != names[j]
  }

  /** The values a label shows among a family's series. */
  ghost function Shown(f: Family, name: string): set<string> {
    set k, i | k in f.series && 0 <= i < |f.series[k].labels| && f.series[k].labels[i].name == name ::
      f.series[k].labels[i].value
  }

  ghost predicate Recorded(families: Families, values: Values) {
    forall n, k, i | n in families && k in families[n].series && 0 <= i < |families[n].series[k].labels| ::
      families[n].series[k].labels[i].value in ValuesOf(values, n, families[n].series[k].labels[i].name)
  }

  ghost predicate Bounded(values: Values, limit: int) {
    forall n, l :: |ValuesOf(values, n, l)| <= limit
  }

  ghost predicate Histograms(families: Families, bounds: seq<real>) {
    forall n, k | n in families && k in families[n].series && families[n].typeName.Histogram? ::
      Tallied(bounds, families[n].series[k])
  }

  /** The number of different values a label shows is limited. */
  lemma ShownIsBounded(families: Families, values: Values, limit: int, metric: string, name: string)
    requires Recorded(families, values) && Bounded(values, limit) && metric in families
    ensures |Shown(families[metric], name)| <= limit
  {
    var shown, known := Shown(families[metric], name), ValuesOf(values, metric, name);
    assert shown <= known;
    FewerOfFewer(shown, known);
  }

  lemma {:induction false} FewerOfFewer<T>(a: set<T>, b: set<T>)
    requires a <= b
    ensures |a| <= |b|
  {
    if a == {} {
    } else {
      var x :| x in a;
      FewerOfFewer(a - {x}, b - {x});
    }
  }

  /** The family an update works on: the registered one, or a new one with the allowed names of its labels. */
  function FamilyFor(families: Families, metric: string, typ: MetricType, names: seq<string>): Family {
    if metric in families then families[metric] else Family(typ, "", names, map[])
  }

  /** The exposed families after an accepted update. */
  function Updated(families: Families, metric: string, f: Family, labels: Labels, c: Change,
      bounds: seq<real>): Families {
    var pairs := Canonical(f.labelNames, labels);
    var key := KeyText(pairs);
    var prior := if key in f.series then f.series[key] else NewSeries(pairs, f.typeName, bounds);
    families[metric := f.(series := f.series[key := Applied(prior, c, bounds)])]
  }

  function WithValues(values: Values, metric: string, pairs: seq<Pair>): Values
    decreases |pairs|
  {
    if pairs == [] then values
    else
      var before := WithValues(values, metric, pairs[..|pairs| - 1]);
      var last := pairs[|pairs| - 1];
      var byName := if metric in before then before[metric] else map[];
      before[metric := byName[last.name := ValuesOf(before, metric, last.name) + {last.value}]]
  }

  lemma {:induction false} WithValuesMeans(values: Values, metric: string, pairs: seq<Pair>, n: string, l: string,
      v: string)
    ensures v in ValuesOf(WithValues(values, metric, pairs), n, l) <==>
      v in ValuesOf(values, n, l) || (n == metric && Pair(l, v) in pairs)
    decreases |pairs|
  {
    if pairs == [] {
    } else {
      var k := |pairs| - 1;
      WithValuesMeans(values, metric, pairs[..k], n, l, v);
      WithValuesMeans(values, metric, pairs[..k], metric, pairs[k].name, v);
      assert pairs == pairs[..k] + [pairs[k]];
      assert Pair(l, v) == pairs[k] <==> l == pairs[k].name && v == pairs[k].value;
    }
  }

  lemma OneMore(before: set<string>, pairs: seq<Pair>, i: nat, l: string, after: set<string>, limit: int)
    requires i < |pairs| && pairs[i].name == l && forall j, k | 0 <= j < k < |pairs| :: pairs[j].name != pairs[k].name
    requires |before| <= limit && (pairs[i].value in before || |before| < limit)
    requires forall v :: v in after <==> v in before || Pair(l, v) in pairs
    ensures |after| <= limit
  {
    var x := pairs[i].value;
    assert pairs[i] == Pair(l, x);
    forall v ensures v in after <==> v in before + {x} {
      if Pair(l, v) in pairs {
        var j :| 0 <= j < |pairs| && pairs[j] == Pair(l, v);
        assert j == i;
      }
    }
    assert after == before + {x};
  }

  /** With distinct label names an admitted update adds at most one value to each label, within the limit. */
  lemma OneLabelStaysBounded(values: Values, metric: string, pairs: seq<Pair>, limit: int, n: string, l: string)
    requires |ValuesOf(values, n, l)| <= limit && Admits(values, metric, pairs, limit)
    requires forall i, j | 0 <= i < j < |pairs| :: pairs[i].name != pairs[j].name
    ensures |ValuesOf(WithValues(values, metric, pairs), n, l)| <= limit
  {
    hide WithValues, ValuesOf;
    var before, after := ValuesOf(values, n, l), ValuesOf(WithValues(values, metric, pairs), n, l);
    forall v ensures v in after <==> v in before || (n == metric && Pair(l, v) in pairs) {
      WithValuesMeans(values, metric, pairs, n, l, v);
    }
    if n == metric && exists i :: 0 <= i < |pairs| && pairs[i].name == l {
      var i :| 0 <= i < |pairs| && pairs[i].name == l;
      OneMore(before, pairs, i, l, after, limit);
    } else {
      assert after == before;
    }
  }

  lemma AdmittedStaysBounded(values: Values, metric: string, pairs: seq<Pair>, limit: int)
    requires Bounded(values, limit) && Admits(values, metric, pairs, limit)
    requires forall i, j | 0 <= i < j < |pairs| :: pairs[i].name != pairs[j].name
    ensures Bounded(WithValues(values, metric, pairs), limit)
  {
    hide WithValues, Admits;
    forall n, l ensures |ValuesOf(WithValues(values, metric, pairs), n, l)| <= limit {
      OneLabelStaysBounded(values, metric, pairs, limit, n, l);
    }
  }

  /** What holds of the exporter's state whatever updates it has seen. */
  ghost predicate Sound(families: Families, values: Values, seriesCount: nat, maxSeries: int, maxValues: int,
      bounds: seq<real>) {
    && Increasing(bounds)
    && seriesCount == |Exposed(families)| <= maxSeries
    && Bounded(values, maxValues) && Recorded(families, values) && Histograms(families, bounds)
    && forall n | n in families :: DistinctNames(families[n].labelNames)
  }

  lemma ExposedAfter(families: Families, metric: string, f: Family, labels: Labels, c: Change, bounds: seq<real>)
    requires metric in families ==> families[metric] == f
    requires metric !in families ==> f.series == map[]
    ensures var key := KeyText(Canonical(f.labelNames, labels));
      Exposed(Updated(families, metric, f, labels, c, bounds)) == Exposed(families) + {(metric, key)}
  {
  }

  lemma TalliedAfter(families: Families, metric: string, f: Family, labels: Labels, c: Change, bounds: seq<real>)
    requires Histograms(families, bounds) && f.typeName == TypeOf(c)
    requires metric in families ==> families[metric] == f
    requires metric !in families ==> f.series == map[]
    ensures Histograms(Updated(families, metric, f, labels, c, bounds), bounds)
  {
    var pairs := Canonical(f.labelNames, labels);
    var key := KeyText(pairs);
    if c.Observed? {
      var prior := if key in f.series then f.series[key] else NewSeries(pairs, f.typeName, bounds);
      ObservingTallies(prior, c.value, bounds);
    }
    hide Tallied;
  }

  lemma RecordedAfter(families: Families, values: Values, metric: string, f: Family, labels: Labels, c: Change,
      bounds: seq<real>)
    requires Recorded(families, values)
    requires metric in families ==> families[metric] == f
    requires metric !in families ==> f.series == map[]
    ensures Recorded(Updated(families, metric, f, labels, c, bounds),
      WithValues(values, metric, Canonical(f.labelNames, labels)))
    ensures KeyText(Canonical(f.labelNames, labels)) in f.series ==>
      Recorded(Updated(families, metric, f, labels, c, bounds), values)
  {
    hide Applied, WithValues, ValuesOf, Canonical, KeyText;
    var pairs := Canonical(f.labelNames, labels);
    var key, values' := KeyText(pairs), WithValues(values, metric, pairs);
    var prior := if key in f.series then f.series[key] else NewSeries(pairs, f.typeName, bounds);
    LabelsStay(prior, c, bounds);
    forall n, l, v
      ensures v in ValuesOf(values', n, l) <==>
        v in ValuesOf(values, n, l) || (n == metric && Pair(l, v) in pairs)
    {
      WithValuesMeans(values, metric, pairs, n, l, v);
    }
    var after := Updated(families, metric, f, labels, c, bounds);
    forall n, k, i | n in after && k in after[n].series && 0 <= i < |after[n].series[k].labels|
      ensures after[n].series[k].labels[i].value in ValuesOf(values', n, after[n].series[k].labels[i].name)
      ensures key in f.series ==>
        after[n].series[k].labels[i].value in ValuesOf(values, n, after[n].series[k].labels[i].name)
    {
      var p := after[n].series[k].labels[i];
      if n == metric && k == key {
        assert after[n].series[k].labels == prior.labels;
        if key !in f.series {
          assert p == Pair(p.name, p.value) && p in pairs;
        }
      }
    }
  }

  lemma LabelsStay(s: Series, c: Change, bounds: seq<real>)
    ensures Applied(s, c, bounds).labels == s.labels
  {
  }

  class Exporter {
    const allowed: set<string>
    const maxValues: int
    const maxSeries: int
    const buckets: seq<real>
    var families: Families
    var labelValues: Values
    var seriesCount: nat

    ghost predicate Valid()
      reads this
    {
      Sound(families, labelValues, seriesCount, maxSeries, maxValues, buckets)
    }

    constructor (allowed: set<string>, maxValues: int, maxSeries: int, buckets: seq<real>)
      requires Increasing(buckets)
      ensures Valid() && families == map[] && this.allowed == allowed && this.buckets == buckets
      ensures this.maxValues == (if maxValues <= 0 then 100 else maxValues)
      ensures this.maxSeries == (if maxSeries <= 0 then 10000 else maxSeries)
    {
      this.allowed, this.buckets := allowed, buckets;
      this.maxValues := if maxValues <= 0 then 100 else maxValues;
      this.maxSeries := if maxSeries <= 0 then 10000 else maxSeries;
      families, labelValues, seriesCount := map[], map[], 0;
    }

    /** allowedNames: the allowed labels, sorted */
    method AllowedNames(labels: Labels) returns (names: seq<string>)
      ensures multiset(names) == multiset(allowed * labels.Keys) && DistinctNames(names)
    {
      var todo := allowed * labels.Keys;
      var found := [];
      while todo != {}
        invariant todo <= allowed * labels.Keys
        invariant multiset(found) == multiset(allowed * labels.Keys - todo)
        decreases todo
      {
        var name :| name in todo;
        found := found + [name];
        todo := todo - {name};
      }
      names := Sort(StringLess, found);
      SortKeeps(StringLess, found);
      BagOfSetIsDistinct(names, allowed * labels.Keys);
    }

    /** update, for every kind of sample; a refused update changes no exposed series. */
    method Update(metric: string, labels: Labels, c: Change)
      returns (err: Option<MetricError>, ghost names: seq<string>)
      requires Valid()
      modifies this
      ensures Valid()
      ensures err.Some? ==> families == old(families) && seriesCount == old(seriesCount)
      ensures DistinctNames(names) && multiset(names) == multiset(allowed * labels.Keys)
      ensures var f := FamilyFor(old(families), metric, TypeOf(c), names);
        var pairs := Canonical(f.labelNames, labels);
        && (err.None? ==> families == Updated(old(families), metric, f, labels, c, buckets))
        && err == (
          if metric == "" || !Proper(c) || f.typeName != TypeOf(c) then Some(InvalidMetric)
          else if KeyText(pairs) in f.series then None
          else if old(seriesCount) >= maxSeries then Some(SeriesLimit)
          else if !Admits(old(labelValues), metric, pairs, maxValues) then Some(LabelValueLimit)
          else None)
    {
      hide Sound, Applied, Canonical, KeyText, Admits, WithValues, Exposed, Proper, DistinctNames;
      var allowedNames := AllowedNames(labels);
      names := allowedNames;
      if metric == "" || !Proper(c) {
        return Some(InvalidMetric), names;
      }
      var f := FamilyFor(families, metric, TypeOf(c), allowedNames);
      if f.typeName != TypeOf(c) {
        return Some(InvalidMetric), names;
      }
      var pairs := Canonical(f.labelNames, labels);
      var key := KeyText(pairs);
      if key in f.series {
        Touch(metric, f, labels, c);
        return None, names;
      }
      err := Admit(metric, f, labels, c);
    }

    /** An update of a series that exists. */
    method Touch(metric: string, f: Family, labels: Labels, c: Change)
      requires Valid() && f.typeName == TypeOf(c) && metric in families && families[metric] == f
      requires KeyText(Canonical(f.labelNames, labels)) in f.series
      modifies this`families
      ensures Valid() && families == Updated(old(families), metric, f, labels, c, buckets)
    {
      hide Sound, Applied, Canonical, KeyText, WithValues, Exposed;
      var key := KeyText(Canonical(f.labelNames, labels));
      UpdatingIsSound(families, labelValues, labelValues, seriesCount, seriesCount, maxSeries, maxValues, metric, f,
        labels, c, buckets);
      if c.Observed? {
        BucketsMatch(families, labelValues, seriesCount, maxSeries, maxValues, buckets, metric, key);
      }
      var s := Apply(f.series[key], c, buckets);
      families := families[metric := f.(series := f.series[key := s])];
    }

    /** An update that needs a new series, in a family that may itself be new and is then dropped again on refusal. */
    method Admit(metric: string, f: Family, labels: Labels, c: Change) returns (err: Option<MetricError>)
      requires Valid() && f.typeName == TypeOf(c) && KeyText(Canonical(f.labelNames, labels)) !in f.series
      requires metric in families ==> families[metric] == f
      requires metric !in families ==> f.series == map[] && DistinctNames(f.labelNames)
      modifies this
      ensures Valid()
      ensures err.Some? ==> families == old(families) && seriesCount == old(seriesCount)
      ensures err.None? ==> families == Updated(old(families), metric, f, labels, c, buckets)
      ensures err == (
        if old(seriesCount) >= maxSeries then Some(SeriesLimit)
        else if !Admits(old(labelValues), metric, Canonical(f.labelNames, labels), maxValues) then Some(LabelValueLimit)
        else None)
    {
      hide Sound, Applied, Canonical, KeyText, Admits, WithValues, Exposed, DistinctNames;
      var pairs := Canonical(f.labelNames, labels);
      var key := KeyText(pairs);
      var before := families;
      families := families[metric := f];
      if seriesCount >= maxSeries {
        families := before;
        return Some(SeriesLimit);
      }
      var admitted := AdmitLabelValues(metric, pairs);
      if !admitted {
        families := before;
        return Some(LabelValueLimit);
      }
      UpdatingIsSound(before, old(labelValues), labelValues, seriesCount, seriesCount + 1, maxSeries, maxValues,
        metric, f, labels, c, buckets);
      var s := Apply(NewSeries(pairs, TypeOf(c), buckets), c, buckets);
      families := families[metric := f.(series := f.series[key := s])];
      seriesCount := seriesCount + 1;
      assert families == Updated(before, metric, f, labels, c, buckets);
      err := None;
    }

    /** admitLabelValues: all of a series' values are recorded, or none. */
    method AdmitLabelValues(metric: string, pairs: seq<Pair>) returns (ok: bool)
      modifies this`labelValues
      ensures ok == Admits(old(labelValues), metric, pairs, maxValues)
      ensures labelValues == if ok then WithValues(old(labelValues), metric, pairs) else old(labelValues)
    {
      for i := 0 to |pairs|
        invariant forall j | 0 <= j < i ::
          pairs[j].value in ValuesOf(labelValues, metric, pairs[j].name) ||
            |ValuesOf(labelValues, metric, pairs[j].name)| < maxValues
      {
        var known := ValuesOf(labelValues, metric, pairs[i].name);
        if pairs[i].value !in known && |known| >= maxValues {
          return false;
        }
      }
      ghost var before := labelValues;
      for i := 0 to |pairs|
        invariant labelValues == WithValues(before, metric, pairs[..i])
      {
        assert pairs[..i + 1][..i] == pairs[..i];
        var byName := if metric in labelValues then labelValues[metric] else map[];
        labelValues := labelValues[metric := byName[pairs[i].name := ValuesOf(labelValues, metric, pairs[i].name) +
          {pairs[i].value}]];
      }
      assert pairs[..|pairs|] == pairs;
      ok := true;
    }
  }

  lemma BucketsMatch(families: Families, values: Values, count: nat, maxSeries: int, maxValues: int,
      bounds: seq<real>, metric: string, key: string)
    requires Sound(families, values, count, maxSeries, maxValues, bounds)
    requires metric in families && key in families[metric].series && families[metric].typeName.Histogram?
    ensures |families[metric].series[key].buckets| == |bounds|
  {
  }

  lemma {:induction false} BagOfSetIsDistinct(s: seq<string>, names: set<string>)
    requires multiset(s) == multiset(names)
    ensures DistinctNames(s)
  {
    forall i, j | 0 <= i < j < |s| ensures s[i] != s[j] {
      assert s == s[..i] + [s[i]] + s[i + 1..j] + [s[j]] + s[j + 1..];
      assert multiset(s)[s[i]] <= 1;
    }
  }

  lemma UpdatingIsSound(families: Families, values: Values, values': Values, count: nat, count': nat, maxSeries: int,
      maxValues: int,
                        metric: string, f: Family, labels: Labels, c: Change, bounds: seq<real>)
    requires Sound(families, values, count, maxSeries, maxValues, bounds) && f.typeName == TypeOf(c)
    requires metric in families ==> families[metric] == f
    requires metric !in families ==> f.series == map[] && DistinctNames(f.labelNames)
    requires var pairs := Canonical(f.labelNames, labels);
      if KeyText(pairs) in f.series then values' == values && count' == count
      else
        && values' == WithValues(values, metric, pairs) && Admits(values, metric, pairs, maxValues)
        && count' == count + 1 && count < maxSeries
    ensures Sound(Updated(families, metric, f, labels, c, bounds), values', count', maxSeries, maxValues, bounds)
  {
    hide Histograms, Recorded, Bounded, Applied, WithValues, Canonical, KeyText, Exposed, Admits, Increasing;
    var pairs := Canonical(f.labelNames, labels);
    ExposedAfter(families, metric, f, labels, c, bounds);
    TalliedAfter(families, metric, f, labels, c, bounds);
    RecordedAfter(families, values, metric, f, labels, c, bounds);
    CountAfter(families, metric, f, KeyText(pairs));
    if KeyText(pairs) !in f.series {
      CanonicalNames(f.labelNames, labels);
      AdmittedStaysBounded(values, metric, pairs, maxValues);
    }
  }

  lemma CanonicalNames(names: seq<string>, labels: Labels)
    requires DistinctNames(names)
    ensures forall i, j | 0 <= i < j < |Canonical(names, labels)| ::
      Canonical(names, labels)[i].name != Canonical(names, labels)[j].name
  {
  }

  lemma CountAfter(families: Families, metric: string, f: Family, key: string)
    requires metric in families ==> families[metric] == f
    requires metric !in families ==> f.series == map[]
    ensures |Exposed(families) + {(metric, key)}| == |Exposed(families)| + if key in f.series then 0 else 1
  {
    if key in f.series {
      assert Exposed(families) + {(metric, key)} == Exposed(families);
    }
  }
}
