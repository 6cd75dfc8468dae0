/** Order-free statistics over job samples (controller/internal/intelligence/stats/stats.go:99-262), over the reals. */
module Stats {
  import opened Common
  import opened Ordering

  datatype Outcome = OutcomeSuccess | OutcomeFailure | OutcomeCancelled | OtherOutcome

  datatype Resources = Resources(cpu: int, memoryGB: real, gpu: int)

  /** Timings are whole nanoseconds by phase. */
  datatype Sample = Sample(
    id: string, provider: string, outcome: Outcome, cacheObserved: bool, cacheHit: bool,
    timings: map<string, int>, resources: Resources)

  datatype DurationStats = DurationStats(count: nat, mean: real, median: real, p95: real)

  datatype ResourceSummary = ResourceSummary(
    count: nat, meanCPU: real, maxCPU: int, meanMemory: real, maxMemory: real, meanGPU: real, maxGPU: int)

  datatype Performance = Performance(
    count: nat, successes: nat, failures: nat, failureRate: real, timings: DurationStats,
    byPhase: map<string, DurationStats>)

  datatype Report = Report(
    count: nat, successes: nat, failures: nat, failureRate: real, cacheObserved: nat, cacheHits: nat,
    cacheHitRate: real,
    timings: map<string, DurationStats>, providers: map<string, Performance>, resources: ResourceSummary,
    resourcesByProvider: map<string, ResourceSummary>)

  datatype StatsError = NoSamples | InvalidSample | DuplicateSample

  const NO_DURATIONS := DurationStats(0, 0.0, 0.0, 0.0)

  const NO_RESOURCES := ResourceSummary(0, 0.0, 0, 0.0, 0.0, 0.0, 0)

  function Rate(numerator: nat, denominator: nat): real {
    if denominator == 0 then 0.0 else numerator as real / denominator as real
  }

  function MS(nanos: int): real {
    nanos as real / 1000000.0
  }

  // ---------------------------------------------------------------- running means

  function Sum(values: seq<real>): real {
    if values == [] then 0.0 else Sum(values[..|values| - 1]) + values[|values| - 1]
  }

  lemma OneMoreMean(mean: real, n: nat, sum: real, v: real)
    requires mean * n as real == sum
    ensures (mean + (v - mean) / (n + 1) as real) * (n + 1) as real == sum + v
  {
    var k := (n + 1) as real;
    var d := (v - mean) / k;
    assert d * k == v - mean;
    calc {
      (mean + d) * k;
      mean * k + d * k;
      mean * k + (v - mean);
      { assert k == n as real + 1.0; }
      mean * (n as real + 1.0) + (v - mean);
      mean * n as real + mean + (v - mean);
      sum + v;
    }
  }

  function Mean(values: seq<real>): real
    requires values != []
  {
    Sum(values) / |values| as real
  }

  /** `mean` is the mean of the first i values, and anything when i is 0. */
  ghost predicate MeanSoFar(mean: real, values: seq<real>, i: nat)
    requires i <= |values|
  {
    mean * i as real == Sum(values[..i])
  }

  lemma NextMean(mean: real, values: seq<real>, i: nat)
    requires i < |values| && MeanSoFar(mean, values, i)
    ensures MeanSoFar(mean + (values[i] - mean) / (i + 1) as real, values, i + 1)
  {
    OneMoreMean(mean, i, Sum(values[..i]), values[i]);
    assert values[..i + 1][..i] == values[..i];
  }

  lemma WholeMean(mean: real, values: seq<real>)
    requires values != [] && MeanSoFar(mean, values, |values|)
    ensures mean == Mean(values)
  {
    assert values[..|values|] == values;
    MeanFromProduct(mean, values);
  }

  lemma MeanFromProduct(mean: real, values: seq<real>)
    requires values != [] && mean * |values| as real == Sum(values)
    ensures mean == Mean(values)
  {
    var n := |values| as real;
    assert (mean * n) / n == mean;
  }

  /** The incremental update mean += (v - mean) / i ends at the sum divided by the count. */
  method RunningMean(values: seq<real>) returns (mean: real)
    requires values != []
    ensures mean == Mean(values)
  {
    hide MeanSoFar;
    mean := 0.0;
    NoMean(values);
    for i := 0 to |values|
      invariant MeanSoFar(mean, values, i)
    {
      NextMean(mean, values, i);
      mean := mean + (values[i] - mean) / (i + 1) as real;
    }
    WholeMean(mean, values);
  }

  lemma NoMean(values: seq<real>)
    ensures MeanSoFar(0.0, values, 0)
  {
  }

  // ---------------------------------------------------------------- durations

  predicate IntLess(a: int, b: int) {
    a < b
  }

  predicate Ascending(s: seq<int>) {
    forall i, j | 0 <= i < j < |s| :: s[i] <= s[j]
  }

  lemma IntSort(s: seq<int>)
    ensures multiset(Sort(IntLess, s)) == multiset(s) && |Sort(IntLess, s)| == |s| && Ascending(Sort(IntLess, s))
  {
    SortKeeps(IntLess, s);
    SortOrders(IntLess, s);
    OrderedIsAscending(Sort(IntLess, s));
  }

  lemma {:induction false} OrderedIsAscending(s: seq<int>)
    requires Ordered(IntLess, s)
    ensures Ascending(s)
  {
    if s == [] {
    } else {
      OrderedIsAscending(s[1..]);
      forall i, j | 0 <= i < j < |s| ensures s[i] <= s[j] {
        assert s[j] in s[1..];
        if i > 0 {
          assert s[1..][i - 1] <= s[1..][j - 1];
        }
      }
    }
  }

  function Millis(s: seq<int>): seq<real> {
    seq(|s|, i requires 0 <= i < |s| => MS(s[i]))
  }

  function Median(s: seq<int>): int
    requires s != []
  {
    if |s| % 2 == 1 then s[|s| / 2] else s[|s| / 2 - 1] + (s[|s| / 2] - s[|s| / 2 - 1]) / 2
  }

  function P95Index(n: nat): (i: nat)
    requires n > 0
    ensures i < n
  {
    (n * 95 + 99) / 100 - 1
  }

  /** What a sample of durations is summarized to, whatever their arrangement. */
  function Summary(values: seq<int>): DurationStats {
    if values == [] then NO_DURATIONS
    else
      var s := Sort(IntLess, values);
      IntSort(values);
      DurationStats(|values|, Mean(Millis(s)), MS(Median(s)), MS(s[P95Index(|s|)]))
  }

  lemma SummaryIgnoresOrder(a: seq<int>, b: seq<int>)
    requires multiset(a) == multiset(b)
    ensures Summary(a) == Summary(b)
  {
    SameBag(a, b);
    SortIgnoresArrangement(IntLess, a, b);
  }

  /** Integer division rounds down; the durations are not negative, so it is Go's. */
  method SummarizeDurations(values: seq<int>) returns (r: DurationStats)
    ensures r == Summary(values)
  {
    if |values| == 0 {
      return NO_DURATIONS;
    }
    var ordered := Sort(IntLess, values);
    IntSort(values);
    var mean := RunningMean(Millis(ordered));
    r := DurationStats(|ordered|, mean, MS(Median(ordered)), MS(ordered[(|ordered| * 95 + 99) / 100 - 1]));
  }

  function Covered(values: seq<int>, v: int): nat {
    if values == [] then 0 else Covered(values[..|values| - 1], v) + if values[|values| - 1] <= v then 1 else 0
  }

  lemma {:induction false} CoveredIgnoresOrder(a: seq<int>, b: seq<int>, v: int)
    requires multiset(a) == multiset(b)
    ensures Covered(a, v) == Covered(b, v)
    decreases |a|
  {
    SameBag(a, b);
    if a == [] {
    } else {
      var x, n := a[|a| - 1], |a| - 1;
      assert x in b;
      var k :| 0 <= k < |b| && b[k] == x;
      var c := b[..k] + b[k + 1..];
      assert a == a[..n] + [x];
      Without(b, k);
      assert multiset(a[..n]) == multiset(a) - multiset{x};
      CoveredIgnoresOrder(a[..n], c, v);
      CoveredWithout(b, k, v);
    }
  }

  lemma Without(b: seq<int>, k: nat)
    requires k < |b|
    ensures multiset(b[..k] + b[k + 1..]) == multiset(b) - multiset{b[k]}
  {
    assert b == b[..k] + [b[k]] + b[k + 1..];
  }

  lemma CoveredWithout(b: seq<int>, k: nat, v: int)
    requires k < |b|
    ensures Covered(b, v) == Covered(b[..k] + b[k + 1..], v) + if b[k] <= v then 1 else 0
  {
    assert b == b[..k] + [b[k]] + b[k + 1..];
    CoveredSplits(b[..k], b[k + 1..], v);
    CoveredSplits(b[..k] + [b[k]], b[k + 1..], v);
    CoveredSplits(b[..k], [b[k]], v);
    CoveredOne(b[k], v);
  }

  lemma CoveredOne(x: int, v: int)
    ensures Covered([x], v) == if x <= v then 1 else 0
  {
    assert [x][..0] == [];
  }

  lemma {:induction false} CoveredSplits(a: seq<int>, b: seq<int>, v: int)
    ensures Covered(a + b, v) == Covered(a, v) + Covered(b, v)
    decreases |b|
  {
    if b == [] {
      assert a + b == a;
    } else {
      assert (a + b)[..|a + b| - 1] == a + b[..|b| - 1];
      CoveredSplits(a, b[..|b| - 1], v);
    }
  }

  /** In an ascending sequence everything up to position n is covered by the value there; below it, at most n are. */
  lemma {:induction false} CoveredAscending(s: seq<int>, n: nat, v: int)
    requires Ascending(s) && n < |s|
    ensures s[n] <= v ==> Covered(s, v) >= n + 1
    ensures v < s[n] ==> Covered(s, v) <= n
    decreases |s|
  {
    var t := s[..|s| - 1];
    if n < |t| {
      CoveredAscending(t, n, v);
    } else {
      CoveredAtMost(t, v);
      if s[n] <= v {
        CoveredAll(t, v);
      }
    }
  }

  lemma {:induction false} CoveredAtMost(s: seq<int>, v: int)
    ensures Covered(s, v) <= |s|
  {
    if s == [] {
    } else {
      CoveredAtMost(s[..|s| - 1], v);
    }
  }

  lemma {:induction false} CoveredAll(s: seq<int>, v: int)
    requires forall i | 0 <= i < |s| :: s[i] <= v
    ensures Covered(s, v) == |s|
  {
    if s == [] {
    } else {
      CoveredAll(s[..|s| - 1], v);
    }
  }

  /** The value reported as P95 is the least sample value that covers at least 95% of the sample. */
  lemma P95IsLeastCovering(values: seq<int>)
    requires values != []
    ensures |Sort(IntLess, values)| == |values|
    ensures var v := Sort(IntLess, values)[P95Index(|values|)];
      && Summary(values).p95 == MS(v) && v in values
      && 100 * Covered(values, v) >= 95 * |values|
      && forall w | w in values && w < v :: 100 * Covered(values, w) < 95 * |values|
  {
    IntSort(values);
    var s := Sort(IntLess, values);
    SameBag(s, values);
    var n := P95Index(|values|);
    var v := s[n];
    CoveredIgnoresOrder(values, s, v);
    CoveredAscending(s, n, v);
    forall w | w in values && w < v ensures 100 * Covered(values, w) < 95 * |values| {
      CoveredIgnoresOrder(values, s, w);
      CoveredAscending(s, n, w);
    }
  }

  /** The median lies between the two middle values: half-way, rounded down. */
  lemma MedianIsMiddle(s: seq<int>)
    requires s != [] && Ascending(s)
    ensures var lower, upper := s[(|s| - 1) / 2], s[|s| / 2];
      lower <= Median(s) <= upper && lower + upper - 1 <= 2 * Median(s) <= lower + upper
  {
  }

  /** The median halves the sample. */
  lemma MedianHalves(values: seq<int>)
    requires values != []
    ensures |Sort(IntLess, values)| == |values|
    ensures var m := Median(Sort(IntLess, values));
      Summary(values).median == MS(m) && 2 * Covered(values, m) >= |values| && 2 * Covered(values, m - 1) <= |values|
  {
    hide Covered, Sort, Median;
    IntSort(values);
    var s := Sort(IntLess, values);
    var m := Median(s);
    MedianIsMiddle(s);
    CoveredIgnoresOrder(values, s, m);
    CoveredIgnoresOrder(values, s, m - 1);
    CoveredAscending(s, (|s| - 1) / 2, m);
    CoveredAscending(s, |s| / 2, m - 1);
  }

  // ---------------------------------------------------------------- resources

  function Highest(values: seq<real>): real {
    if values == [] then 0.0
    else
      var before := Highest(values[..|values| - 1]);
      if values[|values| - 1] > before then values[|values| - 1] else before
  }

  function HighestInt(values: seq<int>): int {
    if values == [] then 0
    else
      var before := HighestInt(values[..|values| - 1]);
      if values[|values| - 1] > before then values[|values| - 1] else before
  }

  /** The highest value is one of them, or 0, and none is above it. */
  lemma {:induction false} HighestIsMaximum(values: seq<real>, whole: seq<int>)
    ensures (Highest(values) in values || Highest(values) == 0.0) && forall v | v in values :: v <= Highest(values)
    ensures (HighestInt(whole) in whole || HighestInt(whole) == 0) && forall v | v in whole :: v <= HighestInt(whole)
    decreases |values| + |whole|
  {
    if values != [] {
      var n := |values| - 1;
      HighestIsMaximum(values[..n], whole);
      assert values == values[..n] + [values[n]];
    } else if whole != [] {
      var n := |whole| - 1;
      HighestIsMaximum(values, whole[..n]);
      assert whole == whole[..n] + [whole[n]];
    }
  }

  function CPUs(rs: seq<Resources>): seq<int> {
    seq(|rs|, i requires 0 <= i < |rs| => rs[i].cpu)
  }

  function GPUs(rs: seq<Resources>): seq<int> {
    seq(|rs|, i requires 0 <= i < |rs| => rs[i].gpu)
  }

  function Memories(rs: seq<Resources>): seq<real> {
    seq(|rs|, i requires 0 <= i < |rs| => rs[i].memoryGB)
  }

  function Reals(s: seq<int>): seq<real> {
    seq(|s|, i requires 0 <= i < |s| => s[i] as real)
  }

  function ResourcesOf(rs: seq<Resources>): ResourceSummary {
    if rs == [] then NO_RESOURCES
    else
      ResourceSummary(|rs|, Mean(Reals(CPUs(rs))), HighestInt(CPUs(rs)), Mean(Memories(rs)), Highest(Memories(rs)),
        Mean(Reals(GPUs(rs))), HighestInt(GPUs(rs)))
  }

  /** One pass with three running means and three running maxima. */
  method SummarizeResources(rs: seq<Resources>) returns (r: ResourceSummary)
    ensures r == ResourcesOf(rs)
  {
    hide MeanSoFar, Mean, HighestInt, Highest;
    if |rs| == 0 {
      return NO_RESOURCES;
    }
    var meanCPU, meanMemory, meanGPU := 0.0, 0.0, 0.0;
    var maxCPU, maxMemory, maxGPU := 0, 0.0, 0;
    ghost var cpus, memories, gpus := CPUs(rs), Memories(rs), GPUs(rs);
    NoMean(Reals(cpus));
    NoMean(memories);
    NoMean(Reals(gpus));
    NoHighest(cpus, memories, gpus);
    for i := 0 to |rs|
      invariant MeanSoFar(meanCPU, Reals(cpus), i) && maxCPU == HighestInt(cpus[..i])
      invariant MeanSoFar(meanMemory, memories, i) && maxMemory == Highest(memories[..i])
      invariant MeanSoFar(meanGPU, Reals(gpus), i) && maxGPU == HighestInt(gpus[..i])
    {
      NextMean(meanCPU, Reals(cpus), i);
      NextMean(meanMemory, memories, i);
      NextMean(meanGPU, Reals(gpus), i);
      HighestStep(cpus, memories, gpus, i);
      meanCPU := meanCPU + (rs[i].cpu as real - meanCPU) / (i + 1) as real;
      meanMemory := meanMemory + (rs[i].memoryGB - meanMemory) / (i + 1) as real;
      meanGPU := meanGPU + (rs[i].gpu as real - meanGPU) / (i + 1) as real;
      if rs[i].cpu > maxCPU {
        maxCPU := rs[i].cpu;
      }
      if rs[i].memoryGB > maxMemory {
        maxMemory := rs[i].memoryGB;
      }
      if rs[i].gpu > maxGPU {
        maxGPU := rs[i].gpu;
      }
    }
    assert cpus[..|rs|] == cpus && memories[..|rs|] == memories && gpus[..|rs|] == gpus;
    WholeMean(meanCPU, Reals(cpus));
    WholeMean(meanMemory, memories);
    WholeMean(meanGPU, Reals(gpus));
    r := ResourceSummary(|rs|, meanCPU, maxCPU, meanMemory, maxMemory, meanGPU, maxGPU);
  }

  lemma NoHighest(cpus: seq<int>, memories: seq<real>, gpus: seq<int>)
    ensures HighestInt(cpus[..0]) == 0 && Highest(memories[..0]) == 0.0 && HighestInt(gpus[..0]) == 0
  {
  }

  lemma HighestStep(cpus: seq<int>, memories: seq<real>, gpus: seq<int>, i: nat)
    requires i < |cpus| == |memories| == |gpus|
    ensures HighestInt(cpus[..i + 1]) == if cpus[i] > HighestInt(cpus[..i]) then cpus[i] else HighestInt(cpus[..i])
    ensures HighestInt(gpus[..i + 1]) == if gpus[i] > HighestInt(gpus[..i]) then gpus[i] else HighestInt(gpus[..i])
    ensures Highest(memories[..i + 1]) ==
      if memories[i] > Highest(memories[..i]) then memories[i] else Highest(memories[..i])
  {
    assert cpus[..i + 1][..i] == cpus[..i] && gpus[..i + 1][..i] == gpus[..i] &&
      memories[..i + 1][..i] == memories[..i];
  }

  // ---------------------------------------------------------------- the report

  predicate ValidSample(s: Sample) {
    && !Blank(s.id) && !Blank(s.provider) && !s.outcome.OtherOutcome? && (s.cacheHit ==> s.cacheObserved)
    && s.resources.cpu >= 0 && s.resources.gpu >= 0 && s.resources.memoryGB >= 0.0
    && forall phase | phase in s.timings :: !Blank(phase) && s.timings[phase] >= 0
  }

  predicate SampleLess(a: Sample, b: Sample) {
    StringLess(a.id, b.id)
  }

  predicate DistinctIDs(samples: seq<Sample>) {
    forall i, j | 0 <= i < j < |samples| :: samples[i].id != samples[j].id
  }

  /** The samples of one provider, or all of them. */
  function From(samples: seq<Sample>, provider: Option<string>): seq<Sample> {
    if samples == [] then []
    else
      var last := samples[|samples| - 1];
      var fits := provider.None? || provider.value == last.provider;
      From(samples[..|samples| - 1], provider) + if fits then [last] else []
  }

  function Number(samples: seq<Sample>, which: Sample -> bool): nat {
    if samples == [] then 0
    else Number(samples[..|samples| - 1], which) + if which(samples[|samples| - 1]) then 1 else 0
  }

  /** The durations of one phase. */
  function PhaseTimes(samples: seq<Sample>, phase: string): seq<int> {
    if samples == [] then []
    else
      var last := samples[|samples| - 1];
      PhaseTimes(samples[..|samples| - 1], phase) + if phase in last.timings then [last.timings[phase]] else []
  }

  /** The durations a map of timings holds, one for each phase. */
  ghost function Durations(timings: map<string, int>, phases: set<string>): multiset<int>
    requires phases <= timings.Keys
  {
    if phases == {} then multiset{}
    else
      var phase :| phase in phases;
      Durations(timings, phases - {phase}) + multiset{timings[phase]}
  }

  ghost function AllTimes(samples: seq<Sample>): multiset<int> {
    if samples == [] then multiset{}
    else
      var last := samples[|samples| - 1];
      AllTimes(samples[..|samples| - 1]) + Durations(last.timings, last.timings.Keys)
  }

  lemma {:induction false} DurationsSplit(timings: map<string, int>, phases: set<string>, phase: string)
    requires phases <= timings.Keys && phase in phases
    ensures Durations(timings, phases) == Durations(timings, phases - {phase}) + multiset{timings[phase]}
  {
    var chosen :| chosen in phases &&
      Durations(timings, phases) == Durations(timings, phases - {chosen}) + multiset{timings[chosen]};
    if chosen != phase {
      DurationsSplit(timings, phases - {chosen}, phase);
      DurationsSplit(timings, phases - {phase}, chosen);
      assert phases - {chosen} - {phase} == phases - {phase} - {chosen};
    }
  }

  predicate Succeeded(s: Sample) {
    s.outcome == OutcomeSuccess
  }

  predicate Unsuccessful(s: Sample) {
    !Succeeded(s)
  }

  predicate Observed(s: Sample) {
    s.cacheObserved
  }

  predicate Hit(s: Sample) {
    s.cacheObserved && s.cacheHit
  }

  function Requested(samples: seq<Sample>): seq<Resources> {
    seq(|samples|, i requires 0 <= i < |samples| => samples[i].resources)
  }

  /** The stats of each phase that some sample timed. */
  ghost predicate IsPhases(samples: seq<Sample>, m: map<string, DurationStats>) {
    && (forall phase :: phase in m <==> PhaseTimes(samples, phase) != [])
    && (forall phase | phase in m :: m[phase] == Summary(PhaseTimes(samples, phase)))
  }

  ghost predicate IsSummaryOf(times: multiset<int>, d: DurationStats) {
    exists values :: multiset(values) == times && d == Summary(values)
  }

  ghost predicate IsPerformance(samples: seq<Sample>, p: Performance) {
    && p.successes == Number(samples, Succeeded) && p.failures == Number(samples, Unsuccessful)
    && p.count == p.successes + p.failures && p.failureRate == Rate(p.failures, p.count)
    && IsSummaryOf(AllTimes(samples), p.timings) && IsPhases(samples, p.byPhase)
  }

  /** The report of a sequence of samples, key by key. */
  ghost predicate IsReport(samples: seq<Sample>, r: Report) {
    && r.count == |samples| && r.successes == Number(samples, Succeeded) && r.failures == Number(samples, Unsuccessful)
    && r.failureRate == Rate(r.failures, r.count)
    && r.cacheObserved == Number(samples, Observed) && r.cacheHits == Number(samples, Hit)
    && r.cacheHitRate == Rate(r.cacheHits, r.cacheObserved)
    && IsPhases(samples, r.timings) && r.resources == ResourcesOf(Requested(samples))
    && (forall p :: p in r.providers <==> From(samples, Some(p)) != [])
    && (forall p | p in r.providers :: IsPerformance(From(samples, Some(p)), r.providers[p]))
    && r.resourcesByProvider.Keys == r.providers.Keys
    && (forall p | p in r.providers :: r.resourcesByProvider[p] == ResourcesOf(Requested(From(samples, Some(p)))))
  }

  lemma PhasesUnique(samples: seq<Sample>, a: map<string, DurationStats>, b: map<string, DurationStats>)
    requires IsPhases(samples, a) && IsPhases(samples, b)
    ensures a == b
  {
    assert a.Keys == b.Keys;
  }

  lemma PerformanceUnique(samples: seq<Sample>, a: Performance, b: Performance)
    requires IsPerformance(samples, a) && IsPerformance(samples, b)
    ensures a == b
  {
    hide IsPhases, Summary;
    PhasesUnique(samples, a.byPhase, b.byPhase);
    var u :| multiset(u) == AllTimes(samples) && a.timings == Summary(u);
    var v :| multiset(v) == AllTimes(samples) && b.timings == Summary(v);
    SummaryIgnoresOrder(u, v);
  }

  /** A report is determined by the ordered samples, whatever the order in which maps are ranged over. */
  lemma ReportUnique(samples: seq<Sample>, a: Report, b: Report)
    requires IsReport(samples, a) && IsReport(samples, b)
    ensures a == b
  {
    hide IsPhases, IsPerformance, Summary, ResourcesOf;
    PhasesUnique(samples, a.timings, b.timings);
    assert a.providers.Keys == b.providers.Keys;
    forall p | p in a.providers ensures a.providers[p] == b.providers[p] {
      PerformanceUnique(From(samples, Some(p)), a.providers[p], b.providers[p]);
    }
    assert a.providers == b.providers;
    assert a.resourcesByProvider == b.resourcesByProvider;
  }

  lemma SampleLessStrictTotal(s: multiset<Sample>)
    requires forall x, y | x in s && y in s && x.id == y.id :: x == y
    ensures StrictTotalOn(SampleLess, s)
  {
    forall x: Sample, y: Sample
      ensures !SampleLess(x, x) && (x in s && y in s && x != y ==> SampleLess(x, y) || SampleLess(y, x))
    {
      StringLessTotal(x.id, x.id);
      StringLessTotal(x.id, y.id);
    }
    forall x: Sample, y: Sample, z: Sample | SampleLess(x, y) && SampleLess(y, z) ensures SampleLess(x, z) {
      StringLessTransitive(x.id, y.id, z.id);
    }
  }

  /** The same samples in any order give the same report. */
  lemma OrderIsInvisible(samples: seq<Sample>, shuffled: seq<Sample>, a: Report, b: Report)
    requires multiset(samples) == multiset(shuffled) && DistinctIDs(samples)
    requires IsReport(Sort(SampleLess, samples), a) && IsReport(Sort(SampleLess, shuffled), b)
    ensures a == b
  {
    hide IsReport;
    SampleLessStrictTotal(multiset(samples));
    SortIgnoresArrangement(SampleLess, samples, shuffled);
    ReportUnique(Sort(SampleLess, samples), a, b);
  }

  // ---------------------------------------------------------------- Analyze

  type Times = map<string, seq<int>>

  function TimesAt(m: Times, phase: string): seq<int> {
    if phase in m then m[phase] else []
  }

  /** What has been gathered for one provider: the entries of the four maps keyed by provider. */
  datatype Group = Group(successes: nat, failures: nat, all: seq<int>, byPhase: Times, resources: seq<Resources>)

  ghost predicate Tracks(m: Times, samples: seq<Sample>) {
    forall phase :: TimesAt(m, phase) == PhaseTimes(samples, phase) &&
      (phase in m <==> PhaseTimes(samples, phase) != [])
  }

  ghost predicate Gathered(g: Group, samples: seq<Sample>) {
    && g.successes == Number(samples, Succeeded) && g.failures == Number(samples, Unsuccessful)
    && multiset(g.all) == AllTimes(samples) && Tracks(g.byPhase, samples) && g.resources == Requested(samples)
  }

  ghost predicate AllGathered(groups: map<string, Group>, samples: seq<Sample>) {
    && (forall p :: p in groups <==> From(samples, Some(p)) != [])
    && (forall p | p in groups :: Gathered(groups[p], From(samples, Some(p))))
  }

  /** `m` with the timings of some phases appended. */
  ghost predicate Extends(m: Times, m': Times, timings: map<string, int>, done: set<string>)
    requires done <= timings.Keys
  {
    && m'.Keys == m.Keys + done
    && forall k :: TimesAt(m', k) == TimesAt(m, k) + if k in done then [timings[k]] else []
  }

  lemma ExtendsOne(m: Times, m': Times, timings: map<string, int>, done: set<string>, k: string)
    requires done <= timings.Keys && k in timings && k !in done && Extends(m, m', timings, done)
    ensures Extends(m, m'[k := TimesAt(m', k) + [timings[k]]], timings, done + {k})
  {
  }

  /** The inner loop: one sample's timings, in whatever order the map yields them. */
  method AddTimings(phases: Times, all: seq<int>, byPhase: Times, timings: map<string, int>)
    returns (phases': Times, all': seq<int>, byPhase': Times)
    ensures Extends(phases, phases', timings, timings.Keys) && Extends(byPhase, byPhase', timings, timings.Keys)
    ensures multiset(all') == multiset(all) + Durations(timings, timings.Keys)
  {
    hide Extends, Durations, TimesAt;
    phases', all', byPhase' := phases, all, byPhase;
    var todo := timings.Keys;
    ghost var done: set<string> := {};
    NothingAdded(phases, timings);
    NothingAdded(byPhase, timings);
    while todo != {}
      invariant todo <= timings.Keys && done == timings.Keys - todo
      invariant Extends(phases, phases', timings, done) && Extends(byPhase, byPhase', timings, done)
      invariant multiset(all') == multiset(all) + Durations(timings, done)
      decreases todo
    {
      var k :| k in todo;
      assert done + {k} - {k} == done;
      DurationsSplit(timings, done + {k}, k);
      ExtendsOne(phases, phases', timings, done, k);
      ExtendsOne(byPhase, byPhase', timings, done, k);
      todo, done := todo - {k}, done + {k};
      phases' := phases'[k := TimesAt(phases', k) + [timings[k]]];
      byPhase' := byPhase'[k := TimesAt(byPhase', k) + [timings[k]]];
      all' := all' + [timings[k]];
    }
    assert done == timings.Keys;
  }

  lemma NothingAdded(m: Times, timings: map<string, int>)
    ensures Extends(m, m, timings, {}) && Durations(timings, {}) == multiset{}
  {
  }

  lemma PrefixGrows(samples: seq<Sample>, i: nat)
    requires i < |samples|
    ensures samples[..i + 1] == samples[..i] + [samples[i]]
  {
  }

  lemma TracksAfter(before: Times, after: Times, samples: seq<Sample>, s: Sample)
    requires Tracks(before, samples) && Extends(before, after, s.timings, s.timings.Keys)
    ensures Tracks(after, samples + [s])
  {
    assert (samples + [s])[..|samples|] == samples;
  }

  lemma GatheredAfter(g: Group, g': Group, samples: seq<Sample>, s: Sample)
    requires Gathered(g, samples) && Tracks(g'.byPhase, samples + [s])
    requires g'.successes == g.successes + (if Succeeded(s) then 1 else 0)
    requires g'.failures == g.failures + (if Succeeded(s) then 0 else 1)
    requires multiset(g'.all) == multiset(g.all) + Durations(s.timings, s.timings.Keys)
    requires g'.resources == g.resources + [s.resources]
    ensures Gathered(g', samples + [s])
  {
    hide Tracks;
    assert (samples + [s])[..|samples|] == samples;
    assert Requested(samples + [s]) == Requested(samples) + [s.resources];
  }

  lemma GroupsAfter(groups: map<string, Group>, g: Group, samples: seq<Sample>, s: Sample)
    requires AllGathered(groups, samples) && Gathered(g, From(samples, Some(s.provider)) + [s])
    ensures AllGathered(groups[s.provider := g], samples + [s])
  {
    hide Gathered;
    assert (samples + [s])[..|samples|] == samples;
    var groups' := groups[s.provider := g];
    forall p
      ensures p in groups' <==> From(samples + [s], Some(p)) != []
      ensures p in groups' ==> Gathered(groups'[p], From(samples + [s], Some(p)))
    {
      if p == s.provider {
        assert From(samples + [s], Some(p)) == From(samples, Some(p)) + [s];
      } else {
        assert From(samples + [s], Some(p)) == From(samples, Some(p));
      }
    }
  }

  method SummarizePhases(m: Times) returns (r: map<string, DurationStats>)
    ensures r.Keys == m.Keys && forall k | k in m :: r[k] == Summary(m[k])
  {
    r := map[];
    var todo := m.Keys;
    while todo != {}
      invariant todo <= m.Keys && r.Keys == m.Keys - todo && forall k | k in r :: r[k] == Summary(m[k])
      decreases todo
    {
      var k :| k in todo;
      todo := todo - {k};
      var d := SummarizeDurations(m[k]);
      r := r[k := d];
    }
  }

  lemma PhasesAreReported(m: Times, r: map<string, DurationStats>, samples: seq<Sample>)
    requires Tracks(m, samples) && r.Keys == m.Keys && forall k | k in m :: r[k] == Summary(m[k])
    ensures IsPhases(samples, r)
  {
    hide Summary;
    forall k | k in m ensures m[k] == PhaseTimes(samples, k) {
      assert TimesAt(m, k) == m[k];
    }
  }

  const NO_GROUP := Group(0, 0, [], map[], [])

  method SummarizeGroup(g: Group, ghost samples: seq<Sample>) returns (p: Performance, r: ResourceSummary)
    requires Gathered(g, samples)
    ensures IsPerformance(samples, p) && r == ResourcesOf(Requested(samples))
  {
    hide Tracks, IsPhases, Summary, ResourcesOf;
    var timings := SummarizeDurations(g.all);
    var byPhase := SummarizePhases(g.byPhase);
    PhasesAreReported(g.byPhase, byPhase, samples);
    p := Performance(g.successes + g.failures, g.successes, g.failures, Rate(g.failures, g.successes + g.failures),
      timings, byPhase);
    r := SummarizeResources(g.resources);
  }

  /** One sample's share of everything that is gathered. */
  method Gather(phases: Times, groups: map<string, Group>, s: Sample, ghost samples: seq<Sample>)
    returns (phases': Times, groups': map<string, Group>)
    requires Tracks(phases, samples) && AllGathered(groups, samples)
    ensures Tracks(phases', samples + [s]) && AllGathered(groups', samples + [s])
  {
    hide Tracks, Gathered, Extends;
    var g := if s.provider in groups then groups[s.provider] else NO_GROUP;
    NothingGathered();
    var all, byPhase;
    phases', all, byPhase := AddTimings(phases, g.all, g.byPhase, s.timings);
    TracksAfter(phases, phases', samples, s);
    GatheredTracks(g, From(samples, Some(s.provider)));
    TracksAfter(g.byPhase, byPhase, From(samples, Some(s.provider)), s);
    var won := if Succeeded(s) then 1 else 0;
    var g' := Group(g.successes + won, g.failures + 1 - won, all, byPhase, g.resources + [s.resources]);
    GatheredAfter(g, g', From(samples, Some(s.provider)), s);
    groups' := groups[s.provider := g'];
    GroupsAfter(groups, g', samples, s);
  }

  lemma NothingGathered()
    ensures Gathered(NO_GROUP, []) && Tracks(map[], []) && AllGathered(map[], [])
  {
  }

  lemma GatheredTracks(g: Group, samples: seq<Sample>)
    requires Gathered(g, samples)
    ensures Tracks(g.byPhase, samples)
  {
  }

  ghost predicate AllValid(samples: seq<Sample>) {
    forall i | 0 <= i < |samples| :: ValidSample(samples[i])
  }

  lemma OneMoreID(samples: seq<Sample>, i: nat)
    requires i < |samples| && DistinctIDs(samples[..i])
    ensures DistinctIDs(samples[..i + 1]) <==> forall j | 0 <= j < i :: samples[j].id != samples[i].id
  {
    assert samples[..i + 1] == samples[..i] + [samples[i]];
    assert forall j | 0 <= j < i :: samples[..i + 1][j] == samples[j];
  }

  lemma PrefixOfDistinct(samples: seq<Sample>, i: nat)
    requires i <= |samples| && DistinctIDs(samples)
    ensures DistinctIDs(samples[..i])
  {
  }

  /** Every sample must be valid and every id unique; the first fault found is reported. */
  method Validate(samples: seq<Sample>) returns (err: Option<StatsError>)
    ensures err.None? <==> samples != [] && DistinctIDs(samples) && AllValid(samples)
  {
    hide ValidSample, DistinctIDs;
    if |samples| == 0 {
      return Some(NoSamples);
    }
    var seen: set<string> := {};
    NoIDs(samples);
    for i := 0 to |samples|
      invariant forall j | 0 <= j < i :: ValidSample(samples[j])
      invariant forall id :: id in seen <==> exists j :: 0 <= j < i && samples[j].id == id
      invariant DistinctIDs(samples[..i])
    {
      if !ValidSample(samples[i]) {
        return Some(InvalidSample);
      }
      OneMoreID(samples, i);
      if samples[i].id in seen {
        if DistinctIDs(samples) {
          PrefixOfDistinct(samples, i + 1);
        }
        return Some(DuplicateSample);
      }
      seen := seen + {samples[i].id};
    }
    assert samples[..|samples|] == samples;
    err := None;
  }

  lemma NoIDs(samples: seq<Sample>)
    ensures DistinctIDs(samples[..0])
  {
  }

  method Analyze(samples: seq<Sample>) returns (r: Result<Report, StatsError>)
    ensures r.Ok? <==> samples != [] && DistinctIDs(samples) && AllValid(samples)
    ensures r.Ok? ==> IsReport(Sort(SampleLess, samples), r.value)
  {
    var err := Validate(samples);
    if err.Some? {
      return Err(err.value);
    }
    var ordered := Sort(SampleLess, samples);
    SortKeeps(SampleLess, samples);
    var report := Compute(ordered);
    r := Ok(report);
  }

  datatype Counts = Counts(successes: nat, failures: nat, observed: nat, hits: nat)

  ghost predicate Counted(c: Counts, samples: seq<Sample>) {
    && c.successes == Number(samples, Succeeded) && c.failures == Number(samples, Unsuccessful)
    && c.observed == Number(samples, Observed) && c.hits == Number(samples, Hit)
  }

  method Count(c: Counts, s: Sample, ghost samples: seq<Sample>) returns (r: Counts)
    requires Counted(c, samples)
    ensures Counted(r, samples + [s])
  {
    assert (samples + [s])[..|samples|] == samples;
    r := c;
    if Succeeded(s) {
      r := r.(successes := r.successes + 1);
    } else {
      r := r.(failures := r.failures + 1);
    }
    if s.cacheObserved {
      r := r.(observed := r.observed + 1);
      if s.cacheHit {
        r := r.(hits := r.hits + 1);
      }
    }
  }

  lemma RequestedGrows(samples: seq<Sample>, s: Sample)
    ensures Requested(samples + [s]) == Requested(samples) + [s.resources]
  {
  }

  lemma NothingCounted()
    ensures Counted(Counts(0, 0, 0, 0), [])
  {
  }

  /** The pass over the ordered samples. */
  method Collect(ordered: seq<Sample>)
    returns (c: Counts, phases: Times, groups: map<string, Group>, all: seq<Resources>)
    ensures Counted(c, ordered) && Tracks(phases, ordered) && AllGathered(groups, ordered) && all == Requested(ordered)
  {
    hide Tracks, AllGathered, Counted, Requested;
    c, phases, groups, all := Counts(0, 0, 0, 0), map[], map[], [];
    NothingGathered();
    NothingCounted();
    NoneRequested();
    for i := 0 to |ordered|
      invariant Counted(c, ordered[..i]) && Tracks(phases, ordered[..i]) && AllGathered(groups, ordered[..i])
      invariant all == Requested(ordered[..i])
    {
      PrefixGrows(ordered, i);
      RequestedGrows(ordered[..i], ordered[i]);
      c := Count(c, ordered[i], ordered[..i]);
      phases, groups := Gather(phases, groups, ordered[i], ordered[..i]);
      all := all + [ordered[i].resources];
    }
    assert ordered[..|ordered|] == ordered;
  }

  lemma NoneRequested()
    ensures Requested([]) == []
  {
  }

  /** The pass and the summaries at its end. */
  method Compute(ordered: seq<Sample>) returns (r: Report)
    ensures IsReport(ordered, r)
  {
    hide Tracks, AllGathered, IsPhases, IsPerformance, Summary, ResourcesOf, Number, From, Requested, Rate;
    var c, phases, groups, all := Collect(ordered);
    var timings := SummarizePhases(phases);
    PhasesAreReported(phases, timings, ordered);
    var providers, byProvider := SummarizeGroups(groups, ordered);
    var resources := SummarizeResources(all);
    r := Report(|ordered|, c.successes, c.failures, Rate(c.failures, |ordered|), c.observed, c.hits,
      Rate(c.hits, c.observed),
      timings, providers, resources, byProvider);
  }

  /** The loop over the providers, in whatever order the map yields them. */
  method SummarizeGroups(groups: map<string, Group>, ghost samples: seq<Sample>)
    returns (providers: map<string, Performance>, byProvider: map<string, ResourceSummary>)
    requires AllGathered(groups, samples)
    ensures forall p :: p in providers <==> From(samples, Some(p)) != []
    ensures byProvider.Keys == providers.Keys
    ensures forall p | p in providers :: IsPerformance(From(samples, Some(p)), providers[p])
    ensures forall p | p in providers :: byProvider[p] == ResourcesOf(Requested(From(samples, Some(p))))
  {
    hide Gathered, IsPerformance, ResourcesOf;
    providers, byProvider := map[], map[];
    var todo := groups.Keys;
    while todo != {}
      invariant todo <= groups.Keys && providers.Keys == byProvider.Keys == groups.Keys - todo
      invariant forall p | p in providers :: IsPerformance(From(samples, Some(p)), providers[p])
      invariant forall p | p in providers :: byProvider[p] == ResourcesOf(Requested(From(samples, Some(p))))
      decreases todo
    {
      var p :| p in todo;
      todo := todo - {p};
      var performance, resources := SummarizeGroup(groups[p], From(samples, Some(p)));
      providers, byProvider := providers[p := performance], byProvider[p := resources];
    }
  }
}
