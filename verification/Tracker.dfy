/**
 * The per-pod latency tracker: samples are appended, pruned by age on every add and by a periodic
 * cleanup, and summarised for a window. Times are integers read from the clock by the caller; averages
 * and interpolation are exact.
 */
module MetricsTracker {
  import opened Collections

  /** One response token. The request id and the decode count are not read by any statistic. */
  datatype PodMetric = PodMetric(timestamp: int, ttft: int, tpot: int, prefill: int)

  function Placeholder(now: int): PodMetric { PodMetric(now, 0, 0, 0) }

  /** The source reads the last character, so an empty address crashes it. */
  function Key(podIP: string): string
    requires podIP != ""
  {
    if podIP[|podIP| - 1] == ':' then podIP[..|podIP| - 1] else podIP
  }

  function Newer(ms: seq<PodMetric>, cutoff: int): seq<PodMetric> {
    if ms == [] then [] else
      var rest, m := Newer(ms[..|ms| - 1], cutoff), ms[|ms| - 1];
      if m.timestamp > cutoff then rest + [m] else rest
  }

  // --- percentiles ------------------------------------------------------------------------------------

  predicate Ascending(v: seq<int>) { forall i, j :: 0 <= i < j < |v| ==> v[i] <= v[j] }

  /** A hundred times the interpolated value at rank `a` hundredths. */
  function Scaled(v: seq<int>, a: nat): int
    requires a <= 100 * (|v| - 1)
  {
    if a % 100 == 0 then 100 * v[a / 100]
    else 100 * v[a / 100] + (a % 100) * (v[a / 100 + 1] - v[a / 100])
  }

  /** Division by a hundred that truncates toward zero. */
  function Hundredth(x: int): int { if x >= 0 then x / 100 else -((-x) / 100) }

  function Percentile(v: seq<int>, p: nat): int
    requires p <= 100
  {
    if v == [] then 0 else RankInRange(|v|, p); Hundredth(Scaled(v, p * (|v| - 1)))
  }

  lemma RankInRange(n: nat, p: nat)
    requires n > 0 && p <= 100
    ensures 0 <= p * (n - 1) <= 100 * (n - 1)
  {
    MulMonotone(p, 100, n - 1);
  }

  lemma MulMonotone(a: nat, b: nat, n: nat)
    requires a <= b
    ensures a * n <= b * n
  {
    assert (b - a) * n >= 0;
  }

  lemma ScaledBetween(v: seq<int>, a: nat)
    requires Ascending(v) && a <= 100 * (|v| - 1)
    ensures 100 * v[a / 100] <= Scaled(v, a)
    ensures a / 100 + 1 < |v| ==> Scaled(v, a) <= 100 * v[a / 100 + 1]
  {
    if a / 100 + 1 < |v| {
      var f, d := a % 100, v[a / 100 + 1] - v[a / 100];
      MulMonotone(f, 100, d);
    }
  }

  lemma ScaledMonotone(v: seq<int>, a: nat, b: nat)
    requires Ascending(v) && a <= b <= 100 * (|v| - 1)
    ensures Scaled(v, a) <= Scaled(v, b)
  {
    ScaledBetween(v, a);
    ScaledBetween(v, b);
    if a / 100 == b / 100 && a % 100 != 0 {
      MulMonotone(a % 100, b % 100, v[a / 100 + 1] - v[a / 100]);
    }
  }

  lemma PercentileEnds(v: seq<int>)
    requires v != []
    ensures Percentile(v, 0) == v[0] && Percentile(v, 100) == v[|v| - 1]
  {
    var n: nat := |v| - 1;
    assert 0 * n == 0 && (100 * n) / 100 == n && (100 * n) % 100 == 0;
  }

  lemma PercentileStep(v: seq<int>, p: nat, q: nat)
    requires Ascending(v) && v != [] && p <= q <= 100
    ensures Percentile(v, p) <= Percentile(v, q)
  {
    var n: nat := |v| - 1;
    RankInRange(|v|, p);
    RankInRange(|v|, q);
    MulMonotone(p, q, n);
    var a, b := p * n, q * n;
    ScaledMonotone(v, a, b);
  }

  /** The percentile never decreases in p, starts at the least value and ends at the greatest. */
  lemma PercentileMonotone(v: seq<int>, p: nat, q: nat)
    requires Ascending(v) && v != [] && p <= q <= 100
    ensures v[0] == Percentile(v, 0) <= Percentile(v, p) <= Percentile(v, q) <= Percentile(v, 100) == v[|v| - 1]
  {
    PercentileEnds(v);
    PercentileStep(v, 0, p);
    PercentileStep(v, p, q);
    PercentileStep(v, q, 100);
  }

  /** `r` is x / 100 cut toward zero. */
  predicate Truncates(r: int, x: int) { if x >= 0 then 100 * r <= x < 100 * (r + 1) else 100 * (r - 1) < x <= 100 * r }

  /** The value at rank k, or the point f hundredths of the way from there to the next, cut toward zero. */
  predicate AtRank(v: seq<int>, k: nat, f: nat, r: int) {
    if f == 0 then k < |v| && r == v[k] else k + 1 < |v| && Truncates(r, (100 - f) * v[k] + f * v[k + 1])
  }

  /** `r` is at rank p percent of the way through the sorted values. */
  ghost predicate Interpolates(v: seq<int>, p: nat, r: int) {
    forall k: nat, f: nat :: p * (|v| - 1) == 100 * k + f && f < 100 ==> AtRank(v, k, f, r)
  }

  lemma ScaledAt(v: seq<int>, k: nat, f: nat)
    requires f < 100 && 100 * k + f <= 100 * (|v| - 1)
    ensures AtRank(v, k, f, Hundredth(Scaled(v, 100 * k + f)))
  {
    var a := 100 * k + f;
    assert a / 100 == k && a % 100 == f;
    if f > 0 { assert Scaled(v, a) == (100 - f) * v[k] + f * v[k + 1]; }
  }

  lemma PercentileInterpolates(v: seq<int>, p: nat)
    requires v != [] && p <= 100
    ensures Interpolates(v, p, Percentile(v, p))
  {
    RankInRange(|v|, p);
    forall k: nat, f: nat | p * (|v| - 1) == 100 * k + f && f < 100 ensures AtRank(v, k, f, Percentile(v, p)) {
      ScaledAt(v, k, f);
    }
  }

  lemma SpacedAt(first: int, gap: int, k: nat, f: nat, x: int, y: int, a: nat)
    requires x == first + k * gap && y == first + (k + 1) * gap && a == 100 * k + f
    ensures (100 - f) * x + f * y == 100 * first + a * gap
  {
    assert y == x + gap;
    assert (100 - f) * x + f * y == 100 * x + f * gap;
    assert a * gap == 100 * (k * gap) + f * gap;
  }

  /** Equally spaced values whose exact percentile is whole return it. */
  lemma EquallySpaced(v: seq<int>, p: nat, first: int, gap: int, exact: int)
    requires v != [] && p <= 100 && forall i :: 0 <= i < |v| ==> v[i] == first + i * gap
    requires 100 * (exact - first) == p * (|v| - 1) * gap
    ensures Percentile(v, p) == exact
  {
    RankInRange(|v|, p);
    PercentileInterpolates(v, p);
    var a: nat := p * (|v| - 1);
    var k, f, r := a / 100, a % 100, Percentile(v, p);
    assert AtRank(v, k, f, r);
    var x, y := v[k], if f == 0 then v[k] + gap else v[k + 1];
    assert y == first + (k + 1) * gap;
    SpacedAt(first, gap, k, f, x, y, a);
    assert 100 * exact == (100 - f) * x + f * y;
  }

  // --- statistics -------------------------------------------------------------------------------------

  function Insert(v: seq<int>, x: int): seq<int> {
    if v == [] || v[|v| - 1] <= x then v + [x] else Insert(v[..|v| - 1], x) + [v[|v| - 1]]
  }

  function Sort(v: seq<int>): seq<int> {
    if v == [] then [] else Insert(Sort(v[..|v| - 1]), v[|v| - 1])
  }

  lemma {:induction false} InsertPermutes(v: seq<int>, x: int)
    ensures multiset(Insert(v, x)) == multiset(v) + multiset{x}
  {
    if v != [] && v[|v| - 1] > x {
      InsertPermutes(v[..|v| - 1], x);
      assert v == v[..|v| - 1] + [v[|v| - 1]];
    }
  }

  lemma {:induction false} InsertSorts(v: seq<int>, x: int)
    requires Ascending(v)
    ensures Ascending(Insert(v, x)) && |Insert(v, x)| == |v| + 1
    ensures forall i :: 0 <= i <= |v| ==> Insert(v, x)[i] <= x || (v != [] && Insert(v, x)[i] <= v[|v| - 1])
  {
    if v != [] && v[|v| - 1] > x { InsertSorts(v[..|v| - 1], x); }
  }

  lemma {:induction false} SortSorts(v: seq<int>)
    ensures Ascending(Sort(v)) && multiset(Sort(v)) == multiset(v) && |Sort(v)| == |v|
  {
    if v != [] {
      SortSorts(v[..|v| - 1]);
      InsertSorts(Sort(v[..|v| - 1]), v[|v| - 1]);
      InsertPermutes(Sort(v[..|v| - 1]), v[|v| - 1]);
      assert v == v[..|v| - 1] + [v[|v| - 1]];
    }
  }

  function Total(v: seq<int>): int { if v == [] then 0 else Total(v[..|v| - 1]) + v[|v| - 1] }

  /** All -1 but the sample count when there is no sample. */
  datatype Latency = Latency(avg: real, min: int, max: int, p50: int, p90: int, p95: int, p99: int, samples: nat)

  function LatencyOf(values: seq<int>): Latency {
    var v := Sort(values);
    if values == [] then Latency(-1.0, -1, -1, -1, -1, -1, -1, 0)
    else
      SortSorts(values);
      Latency(Total(values) as real / |values| as real, v[0], v[|v| - 1],
              Percentile(v, 50), Percentile(v, 90), Percentile(v, 95), Percentile(v, 99), |values|)
  }

  lemma {:induction false} TotalBetween(v: seq<int>, lo: int, hi: int)
    requires forall i :: 0 <= i < |v| ==> lo <= v[i] <= hi
    ensures |v| * lo <= Total(v) <= |v| * hi
  {
    if v != [] {
      TotalBetween(v[..|v| - 1], lo, hi);
      assert |v| * lo == (|v| - 1) * lo + lo && |v| * hi == (|v| - 1) * hi + hi;
    }
  }

  lemma MeanBetween(total: int, n: nat, lo: int, hi: int)
    requires n > 0 && n * lo <= total <= n * hi
    ensures lo as real <= total as real / n as real <= hi as real
  {
    var r := total as real / n as real;
    assert r * n as real == total as real;
    assert (n * lo) as real == n as real * lo as real && (n * hi) as real == n as real * hi as real;
    if r < lo as real { ScaleLess(r, lo as real, n); }
    if r > hi as real { ScaleLess(hi as real, r, n); }
  }

  lemma ScaleLess(a: real, b: real, n: nat)
    requires a < b && n > 0
    ensures a * n as real < b * n as real
  {
  }

  lemma SortedEnds(values: seq<int>)
    requires values != []
    ensures var v := Sort(values);
      |v| == |values| && v[0] in values && v[|v| - 1] in values && forall x :: x in values ==> v[0] <= x <= v[|v| - 1]
  {
    SortSorts(values);
    var v := Sort(values);
    assert forall x :: x in values <==> x in multiset(values);
    assert forall x :: x in v <==> x in multiset(v);
    forall x | x in values ensures v[0] <= x <= v[|v| - 1] {
      assert x in multiset(v);
      var i :| 0 <= i < |v| && v[i] == x;
    }
    assert v[0] in multiset(v) && v[|v| - 1] in multiset(v);
  }

  lemma MeanOrdered(values: seq<int>)
    requires values != []
    ensures var v := Sort(values);
      |v| == |values| && v[0] as real <= Total(values) as real / |values| as real <= v[|v| - 1] as real
  {
    SortedEnds(values);
    var v := Sort(values);
    assert forall i :: 0 <= i < |values| ==> values[i] in values;
    TotalBetween(values, v[0], v[|v| - 1]);
    MeanBetween(Total(values), |values|, v[0], v[|v| - 1]);
  }

  /** Min and Max are the extreme samples, and every other figure lies between them in order. */
  lemma LatencyOrdered(values: seq<int>)
    requires values != []
    ensures var l := LatencyOf(values);
      && l.min in values && l.max in values && (forall x :: x in values ==> l.min <= x <= l.max)
      && l.min <= l.p50 <= l.p90 <= l.p95 <= l.p99 <= l.max
      && l.min as real <= l.avg <= l.max as real
  {
    var v := Sort(values);
    SortSorts(values);
    SortedEnds(values);
    MeanOrdered(values);
    PercentileMonotone(v, 50, 90);
    PercentileMonotone(v, 90, 95);
    PercentileMonotone(v, 95, 99);
  }

  function Ttfts(ms: seq<PodMetric>): seq<int> {
    if ms == [] then [] else
      var rest, m := Ttfts(ms[..|ms| - 1]), ms[|ms| - 1];
      if m.ttft > 0 then rest + [m.ttft] else rest
  }

  function Tpots(ms: seq<PodMetric>): seq<int> {
    if ms == [] then [] else
      var rest, m := Tpots(ms[..|ms| - 1]), ms[|ms| - 1];
      if m.tpot > 0 then rest + [m.tpot] else rest
  }

  function Prefills(ms: seq<PodMetric>): int {
    if ms == [] then 0 else
      var rest, m := Prefills(ms[..|ms| - 1]), ms[|ms| - 1];
      if m.ttft > 0 then rest + m.prefill else rest
  }

  /** Requests are told apart by the time of their first token. */
  function FirstTokens(ms: seq<PodMetric>): set<int> { set m | m in ms && m.ttft > 0 :: m.timestamp }

  datatype Details = Details(ttft: Latency, tpot: Latency, requests: nat, decode: nat, prefill: int, tokens: int)

  function Summary(ms: seq<PodMetric>): Details {
    Details(LatencyOf(Ttfts(ms)), LatencyOf(Tpots(ms)), |FirstTokens(ms)|, |Tpots(ms)|, Prefills(ms),
            |Tpots(ms)| + Prefills(ms))
  }

  // --- what the figures say of the samples ------------------------------------------------------------

  /** The figures of the samples after `start`, by the sample's place. */
  function TtftAt(ms: seq<PodMetric>, start: int): map<nat, int> {
    map i: nat | i < |ms| && ms[i].timestamp > start && ms[i].ttft > 0 :: ms[i].ttft
  }

  function TpotAt(ms: seq<PodMetric>, start: int): map<nat, int> {
    map i: nat | i < |ms| && ms[i].timestamp > start && ms[i].tpot > 0 :: ms[i].tpot
  }

  function PrefillAt(ms: seq<PodMetric>, start: int): map<nat, int> {
    map i: nat | i < |ms| && ms[i].timestamp > start && ms[i].ttft > 0 :: ms[i].prefill
  }

  /** The different times of the first tokens after `start`. */
  function TimesAt(ms: seq<PodMetric>, start: int): set<int> { set i | i in TtftAt(ms, start) :: ms[i].timestamp }

  function PlacesOf(x: map<nat, int>, y: int): set<nat> { set i | i in x && x[i] == y }

  /** The values of `x`, each as often as it occurs. */
  ghost predicate Holds(values: seq<int>, x: map<nat, int>) {
    |values| == |x| && forall y :: multiset(values)[y] == |PlacesOf(x, y)|
  }

  /** In order. */
  ghost predicate Arranges(v: seq<int>, x: map<nat, int>) { Ascending(v) && Holds(v, x) }

  /** Extremes and percentiles of sorted values. */
  ghost predicate Spread(l: Latency, v: seq<int>) {
    && v != [] && l.min == v[0] && l.max == v[|v| - 1]
    && Interpolates(v, 50, l.p50) && Interpolates(v, 90, l.p90) && Interpolates(v, 95, l.p95) && Interpolates(v, 99, l.p99)
  }

  /** Mean, extremes and percentiles of the values, -1 without any. */
  ghost predicate Figures(l: Latency, x: map<nat, int>) {
    && l.samples == |x|
    && (x == map[] ==> l.avg == -1.0 && l.min == l.max == l.p50 == l.p90 == l.p95 == l.p99 == -1)
    && (x != map[] ==> l.avg == Sum(x) as real / |x| as real && exists v :: Arranges(v, x) && Spread(l, v))
  }

  /** Every figure in terms of the samples after `start`. */
  ghost predicate Describes(d: Details, ms: seq<PodMetric>, start: int) {
    && Figures(d.ttft, TtftAt(ms, start)) && Figures(d.tpot, TpotAt(ms, start))
    && d.requests == |TimesAt(ms, start)|
    && d.decode == |TpotAt(ms, start)| && d.prefill == Sum(PrefillAt(ms, start)) && d.tokens == d.decode + d.prefill
  }

  lemma CountNext(values: seq<int>, x: map<nat, int>, i: nat, y: int, z: int)
    requires multiset(values)[z] == |PlacesOf(x, z)| && i !in x
    ensures multiset(values + [y])[z] == |PlacesOf(x[i := y], z)|
  {
    assert PlacesOf(x[i := y], z) == if z == y then PlacesOf(x, z) + {i} else PlacesOf(x, z);
  }

  lemma HoldsNext(values: seq<int>, x: map<nat, int>, i: nat, y: int)
    requires Holds(values, x) && i !in x
    ensures Holds(values + [y], x[i := y])
  {
    assert x[i := y].Keys == x.Keys + {i};
    forall z ensures multiset(values + [y])[z] == |PlacesOf(x[i := y], z)| { CountNext(values, x, i, y, z); }
  }

  lemma TotalNext(values: seq<int>, x: map<nat, int>, i: nat, y: int)
    requires Total(values) == Sum(x) && i !in x
    ensures Total(values + [y]) == Sum(x[i := y])
  {
    TotalAppend(values, y);
    SumUpdate(x, i, y);
  }

  lemma TtftAtNext(ms: seq<PodMetric>, start: int)
    requires ms != []
    ensures var n := |ms| - 1; var front := ms[..n];
      if ms[n].timestamp > start && ms[n].ttft > 0 then
        && TtftAt(ms, start) == TtftAt(front, start)[n := ms[n].ttft]
        && PrefillAt(ms, start) == PrefillAt(front, start)[n := ms[n].prefill]
      else
        TtftAt(ms, start) == TtftAt(front, start) && PrefillAt(ms, start) == PrefillAt(front, start)
  {
  }

  lemma {:induction false} TtftsHeld(ms: seq<PodMetric>, start: int)
    ensures Holds(Ttfts(Newer(ms, start)), TtftAt(ms, start))
    ensures Total(Ttfts(Newer(ms, start))) == Sum(TtftAt(ms, start))
  {
    if ms == [] {
      assert TtftAt(ms, start) == map[];
    } else {
      var n := |ms| - 1;
      var front, m := ms[..n], ms[n];
      TtftsHeld(front, start);
      TtftAtNext(ms, start);
      HoldsNext(Ttfts(Newer(front, start)), TtftAt(front, start), n, m.ttft);
      TotalNext(Ttfts(Newer(front, start)), TtftAt(front, start), n, m.ttft);
      TtftsAppend(Newer(front, start), m);
    }
  }

  lemma {:induction false} PrefillsHeld(ms: seq<PodMetric>, start: int)
    ensures Prefills(Newer(ms, start)) == Sum(PrefillAt(ms, start))
  {
    if ms == [] {
      assert PrefillAt(ms, start) == map[];
    } else {
      var n: nat := |ms| - 1;
      var kept := Newer(ms[..n], start);
      PrefillsHeld(ms[..n], start);
      assert (kept + [ms[n]])[..|kept|] == kept;
      TtftAtNext(ms, start);
      assert n !in PrefillAt(ms[..n], start);
      SumUpdate(PrefillAt(ms[..n], start), n, ms[n].prefill);
    }
  }

  lemma TpotAtNext(ms: seq<PodMetric>, start: int)
    requires ms != []
    ensures var n := |ms| - 1;
      TpotAt(ms, start) ==
      if ms[n].timestamp > start && ms[n].tpot > 0 then TpotAt(ms[..n], start)[n := ms[n].tpot] else TpotAt(ms[..n], start)
  {
  }

  lemma TpotsAppend(ms: seq<PodMetric>, m: PodMetric)
    ensures Tpots(ms + [m]) == if m.tpot > 0 then Tpots(ms) + [m.tpot] else Tpots(ms)
  {
    assert (ms + [m])[..|ms|] == ms;
  }

  lemma {:induction false} TpotsHeld(ms: seq<PodMetric>, start: int)
    ensures Holds(Tpots(Newer(ms, start)), TpotAt(ms, start))
    ensures Total(Tpots(Newer(ms, start))) == Sum(TpotAt(ms, start))
  {
    if ms == [] {
      assert TpotAt(ms, start) == map[];
    } else {
      var n := |ms| - 1;
      var front, m := ms[..n], ms[n];
      TpotsHeld(front, start);
      TpotAtNext(ms, start);
      HoldsNext(Tpots(Newer(front, start)), TpotAt(front, start), n, m.tpot);
      TotalNext(Tpots(Newer(front, start)), TpotAt(front, start), n, m.tpot);
      TpotsAppend(Newer(front, start), m);
    }
  }

  lemma SortSpreads(values: seq<int>)
    requires values != []
    ensures |Sort(values)| == |values| && Spread(LatencyOf(values), Sort(values))
  {
    SortSorts(values);
    PercentileInterpolates(Sort(values), 50);
    PercentileInterpolates(Sort(values), 90);
    PercentileInterpolates(Sort(values), 95);
    PercentileInterpolates(Sort(values), 99);
  }

  lemma SortArranges(values: seq<int>, x: map<nat, int>)
    requires Holds(values, x)
    ensures Arranges(Sort(values), x)
  {
    SortSorts(values);
  }

  lemma LatencyDescribes(values: seq<int>, x: map<nat, int>)
    requires Holds(values, x) && Total(values) == Sum(x)
    ensures Figures(LatencyOf(values), x)
  {
    if values == [] {
      assert x == map[];
    } else {
      SortSpreads(values);
      SortArranges(values, x);
    }
  }

  lemma {:induction false} FirstTokensAt(ms: seq<PodMetric>, start: int)
    ensures FirstTokens(Newer(ms, start)) == TimesAt(ms, start)
  {
    if ms != [] {
      FirstTokensAt(ms[..|ms| - 1], start);
      FirstTokensAppend(Newer(ms[..|ms| - 1], start), ms[|ms| - 1]);
      TimesAtNext(ms, start);
    }
  }

  lemma TimesAtNext(ms: seq<PodMetric>, start: int)
    requires ms != []
    ensures var n := |ms| - 1; var front := ms[..n];
      TimesAt(ms, start) ==
      if ms[n].timestamp > start && ms[n].ttft > 0 then TimesAt(front, start) + {ms[n].timestamp} else TimesAt(front, start)
  {
    var n := |ms| - 1;
    forall x ensures x in TimesAt(ms, start) <==>
      x in TimesAt(ms[..n], start) || (ms[n].timestamp > start && ms[n].ttft > 0 && x == ms[n].timestamp)
    {
      if x in TimesAt(ms[..n], start) {
        var i :| i in TtftAt(ms[..n], start) && ms[..n][i].timestamp == x;
        assert i in TtftAt(ms, start) && ms[i].timestamp == x;
      }
      if ms[n].timestamp > start && ms[n].ttft > 0 { assert n in TtftAt(ms, start); }
      if x in TimesAt(ms, start) {
        var i :| i in TtftAt(ms, start) && ms[i].timestamp == x;
        assert i < n ==> i in TtftAt(ms[..n], start) && ms[..n][i].timestamp == x;
      }
    }
  }

  /** The figures a query gives are those of the samples after its start, whatever is held. */
  lemma SummaryDescribes(ms: seq<PodMetric>, start: int)
    ensures Describes(Summary(Newer(ms, start)), ms, start)
  {
    TtftsHeld(ms, start);
    PrefillsHeld(ms, start);
    TpotsHeld(ms, start);
    LatencyDescribes(Ttfts(Newer(ms, start)), TtftAt(ms, start));
    LatencyDescribes(Tpots(Newer(ms, start)), TpotAt(ms, start));
    FirstTokensAt(ms, start);
  }

  ghost function NewerBefore(ms: seq<PodMetric>, cutoff: int, n: nat): nat
    requires n <= |ms|
  {
    |set k: nat | k < n && ms[k].timestamp > cutoff|
  }

  /** `r` is the samples after the cutoff in their order: each stands where as many are before it as were before. */
  ghost predicate Keeps(r: seq<PodMetric>, ms: seq<PodMetric>, cutoff: int) {
    && |r| == NewerBefore(ms, cutoff, |ms|)
    && forall i: nat {:trigger NewerBefore(ms, cutoff, i)} :: i < |ms| && ms[i].timestamp > cutoff ==>
         NewerBefore(ms, cutoff, i) < |r| && r[NewerBefore(ms, cutoff, i)] == ms[i]
  }

  lemma NewerBeforeStep(ms: seq<PodMetric>, cutoff: int, n: nat)
    requires n < |ms|
    ensures NewerBefore(ms, cutoff, n + 1) == NewerBefore(ms, cutoff, n) + if ms[n].timestamp > cutoff then 1 else 0
  {
    var a, b := set k: nat | k < n && ms[k].timestamp > cutoff, set k: nat | k < n + 1 && ms[k].timestamp > cutoff;
    assert b == if ms[n].timestamp > cutoff then a + {n} else a;
  }

  lemma NewerBeforeFront(ms: seq<PodMetric>, cutoff: int, m: nat, n: nat)
    requires n <= m <= |ms|
    ensures NewerBefore(ms[..m], cutoff, n) == NewerBefore(ms, cutoff, n)
  {
    assert (set k: nat | k < n && ms[..m][k].timestamp > cutoff) == (set k: nat | k < n && ms[k].timestamp > cutoff);
  }

  lemma {:induction false} NewerKeeps(ms: seq<PodMetric>, cutoff: int)
    ensures Keeps(Newer(ms, cutoff), ms, cutoff)
  {
    if ms != [] {
      var n := |ms| - 1;
      NewerKeeps(ms[..n], cutoff);
      NewerBeforeStep(ms, cutoff, n);
      NewerBeforeFront(ms, cutoff, n, n);
      forall i: nat | i < |ms| && ms[i].timestamp > cutoff
        ensures NewerBefore(ms, cutoff, i) < |Newer(ms, cutoff)| && Newer(ms, cutoff)[NewerBefore(ms, cutoff, i)] == ms[i]
      {
        NewerBeforeFront(ms, cutoff, n, i);
      }
    }
  }

  lemma {:induction false} NoneNewer(ms: seq<PodMetric>, cutoff: int)
    ensures Newer(ms, cutoff) == [] <==> forall i :: 0 <= i < |ms| ==> ms[i].timestamp <= cutoff
  {
    if ms != [] { NoneNewer(ms[..|ms| - 1], cutoff); }
  }

  /** An address without the colon it may end in. */
  predicate Trims(podIP: string, key: string) {
    podIP == key + ":" || (podIP == key && (key == "" || key[|key| - 1] != ':'))
  }

  lemma KeyTrims(podIP: string, key: string)
    requires podIP != ""
    ensures Trims(podIP, key) <==> key == Key(podIP)
  {
    assert podIP == podIP[..|podIP| - 1] + [podIP[|podIP| - 1]];
    assert (key + ":")[..|key|] == key;
  }

  // --- the tracker as a machine ---------------------------------------------------------------------------

  datatype Op =
    | Init(podIP: string, now: int)
    | Add(podIP: string, metric: PodMetric, now: int)
    | Cleanup(now: int)

  predicate Callable(op: Op) { op.Cleanup? || op.podIP != "" }

  type Metrics = map<string, seq<PodMetric>>

  function Tidied(ms: seq<PodMetric>, window: int, now: int): seq<PodMetric> {
    if Newer(ms, now - window) == [] then [Placeholder(now)] else Newer(ms, now - window)
  }

  function Held(s: Metrics, key: string): seq<PodMetric> { if key in s then s[key] else [] }

  function Apply(s: Metrics, window: int, op: Op): Metrics
    requires Callable(op)
  {
    match op
    case Init(podIP, now) => if Key(podIP) in s then s else s[Key(podIP) := [Placeholder(now)]]
    case Add(podIP, metric, now) =>
      s[Key(podIP) := Newer(Held(s, Key(podIP)) + [metric], now - 2 * window)]
    case Cleanup(now) => map k | k in s :: Tidied(s[k], window, now)
  }

  /** A new pod gets a placeholder; a known one keeps its samples. */
  lemma InitDescribed(s: Metrics, window: int, podIP: string, key: string, now: int)
    requires podIP != "" && Trims(podIP, key)
    ensures Apply(s, window, Init(podIP, now)) == if key in s then s else s[key := [PodMetric(now, 0, 0, 0)]]
  {
    KeyTrims(podIP, key);
  }

  lemma AddApplied(s: Metrics, window: int, podIP: string, key: string, metric: PodMetric, now: int, all: seq<PodMetric>)
    requires podIP != "" && Trims(podIP, key) && all == if key in s then s[key] + [metric] else [metric]
    ensures Apply(s, window, Add(podIP, metric, now)) == s[key := Newer(all, now - 2 * window)]
  {
    KeyTrims(podIP, key);
    assert Held(s, key) + [metric] == all;
  }

  /** The sample comes after the pod's others, those of the last two windows stay, and no other pod changes. */
  lemma AddDescribed(s: Metrics, window: int, podIP: string, key: string, metric: PodMetric, now: int, all: seq<PodMetric>)
    returns (kept: seq<PodMetric>)
    requires podIP != "" && Trims(podIP, key) && all == if key in s then s[key] + [metric] else [metric]
    ensures Keeps(kept, all, now - 2 * window)
    ensures Apply(s, window, Add(podIP, metric, now)) == s[key := kept]
  {
    AddApplied(s, window, podIP, key, metric, now, all);
    kept := Newer(all, now - 2 * window);
    NewerKeeps(all, now - 2 * window);
  }

  /** Every pod keeps the samples of the last window, or a placeholder if there is none. */
  lemma CleanupDescribed(s: Metrics, window: int, now: int, key: string)
    requires key in s
    ensures var s' := Apply(s, window, Cleanup(now));
      && s'.Keys == s.Keys
      && if forall i :: 0 <= i < |s[key]| ==> s[key][i].timestamp <= now - window
         then s'[key] == [PodMetric(now, 0, 0, 0)]
         else Keeps(s'[key], s[key], now - window)
  {
    NoneNewer(s[key], now - window);
    NewerKeeps(s[key], now - window);
  }

  /** The same run of a tracker that never forgets a sample and never writes a placeholder. */
  function Remember(h: Metrics, op: Op): Metrics
    requires Callable(op)
  {
    match op
    case Init(podIP, now) => if Key(podIP) in h then h else h[Key(podIP) := []]
    case Add(podIP, metric, now) => h[Key(podIP) := Held(h, Key(podIP)) + [metric]]
    case Cleanup(now) => h
  }

  predicate CallableAll(ops: seq<Op>) { forall i :: 0 <= i < |ops| ==> Callable(ops[i]) }

  function Run(ops: seq<Op>, window: int): Metrics
    requires CallableAll(ops)
  {
    if ops == [] then map[] else Apply(Run(ops[..|ops| - 1], window), window, ops[|ops| - 1])
  }

  function History(ops: seq<Op>): Metrics
    requires CallableAll(ops)
  {
    if ops == [] then map[] else Remember(History(ops[..|ops| - 1]), ops[|ops| - 1])
  }

  /** No pruning of this pod so far reached past the query start. */
  predicate Covered(ops: seq<Op>, window: int, key: string, start: int)
    requires CallableAll(ops)
  {
    ops == [] ||
    (&& Covered(ops[..|ops| - 1], window, key, start)
     && match ops[|ops| - 1]
        case Init(_, _) => true
        case Add(podIP, _, now) => Key(podIP) == key ==> start >= now - 2 * window
        case Cleanup(now) => key in History(ops[..|ops| - 1]) ==> start >= now - window)
  }

  predicate Counts(m: PodMetric, start: int) { m.timestamp > start && (m.ttft > 0 || m.tpot > 0) }

  function Counted(ms: seq<PodMetric>, start: int): seq<PodMetric> {
    if ms == [] then [] else
      var rest, m := Counted(ms[..|ms| - 1], start), ms[|ms| - 1];
      if Counts(m, start) then rest + [m] else rest
  }

  lemma CountedAppend(ms: seq<PodMetric>, m: PodMetric, start: int)
    ensures Counted(ms + [m], start) == if Counts(m, start) then Counted(ms, start) + [m] else Counted(ms, start)
  {
    assert (ms + [m])[..|ms|] == ms;
  }

  lemma {:induction false} PruningKeepsCounted(ms: seq<PodMetric>, cutoff: int, start: int)
    requires start >= cutoff
    ensures Counted(Newer(ms, cutoff), start) == Counted(ms, start)
  {
    if ms != [] {
      PruningKeepsCounted(ms[..|ms| - 1], cutoff, start);
      CountedAppend(Newer(ms[..|ms| - 1], cutoff), ms[|ms| - 1], start);
    }
  }

  lemma CountedPlaceholder(now: int, start: int)
    ensures Counted([Placeholder(now)], start) == []
  {
    assert [Placeholder(now)][..0] == [];
  }

  ghost predicate Agree(s: Metrics, h: Metrics, key: string, start: int) {
    && (key in s <==> key in h)
    && (key in s ==> Counted(s[key], start) == Counted(h[key], start))
  }

  lemma AddAgrees(ms: seq<PodMetric>, hs: seq<PodMetric>, metric: PodMetric, cutoff: int, start: int)
    requires Counted(ms, start) == Counted(hs, start) && start >= cutoff
    ensures Counted(Newer(ms + [metric], cutoff), start) == Counted(hs + [metric], start)
  {
    PruningKeepsCounted(ms + [metric], cutoff, start);
    CountedAppend(ms, metric, start);
    CountedAppend(hs, metric, start);
  }

  lemma TidiedAgrees(ms: seq<PodMetric>, window: int, now: int, start: int)
    requires start >= now - window
    ensures Counted(Tidied(ms, window, now), start) == Counted(ms, start)
  {
    PruningKeepsCounted(ms, now - window, start);
    CountedPlaceholder(now, start);
  }

  lemma InitAgrees(s: Metrics, h: Metrics, window: int, op: Op, key: string, start: int)
    requires op.Init? && Callable(op) && Agree(s, h, key, start)
    ensures Agree(Apply(s, window, op), Remember(h, op), key, start)
  {
    CountedPlaceholder(op.now, start);
  }

  /** An update of one pod's samples leaves the others alone. */
  lemma UpdateAgrees(s: Metrics, h: Metrics, at: string, ms: seq<PodMetric>, hs: seq<PodMetric>, key: string, start: int)
    requires Agree(s, h, key, start) && (at == key ==> Counted(ms, start) == Counted(hs, start))
    ensures Agree(s[at := ms], h[at := hs], key, start)
  {
    if at != key { assert key in s[at := ms] <==> key in s; }
  }

  lemma AppendAgrees(s: Metrics, h: Metrics, window: int, op: Op, key: string, start: int)
    requires op.Add? && Callable(op) && Agree(s, h, key, start)
    requires Key(op.podIP) == key ==> start >= op.now - 2 * window
    ensures Agree(Apply(s, window, op), Remember(h, op), key, start)
  {
    var at, cutoff := Key(op.podIP), op.now - 2 * window;
    var ms, hs := Newer(Held(s, at) + [op.metric], cutoff), Held(h, at) + [op.metric];
    if at == key { AddAgrees(Held(s, at), Held(h, at), op.metric, cutoff, start); }
    UpdateAgrees(s, h, at, ms, hs, key, start);
  }

  lemma CleanupAgrees(s: Metrics, h: Metrics, window: int, op: Op, key: string, start: int)
    requires op.Cleanup? && Agree(s, h, key, start)
    requires key in h ==> start >= op.now - window
    ensures Agree(Apply(s, window, op), Remember(h, op), key, start)
  {
    if key in s { TidiedAgrees(s[key], window, op.now, start); }
  }

  lemma {:induction false} RunAgrees(ops: seq<Op>, window: int, key: string, start: int)
    requires CallableAll(ops) && Covered(ops, window, key, start)
    ensures Agree(Run(ops, window), History(ops), key, start)
  {
    if ops != [] {
      RunAgrees(ops[..|ops| - 1], window, key, start);
      var s, h, op := Run(ops[..|ops| - 1], window), History(ops[..|ops| - 1]), ops[|ops| - 1];
      match op
      case Init(_, _) => InitAgrees(s, h, window, op, key, start);
      case Add(_, _, _) => AppendAgrees(s, h, window, op, key, start);
      case Cleanup(_) => CleanupAgrees(s, h, window, op, key, start);
    }
  }

  lemma FirstTokensAppend(ms: seq<PodMetric>, m: PodMetric)
    ensures FirstTokens(ms + [m]) == if m.ttft > 0 then FirstTokens(ms) + {m.timestamp} else FirstTokens(ms)
  {
    var a, b := FirstTokens(ms + [m]), if m.ttft > 0 then FirstTokens(ms) + {m.timestamp} else FirstTokens(ms);
    forall t | t in b ensures t in a {
      if m.ttft > 0 && t == m.timestamp { assert m in ms + [m]; }
    }
    assert a == b;
  }

  /** A sample with neither figure leaves every part of the summary as it was. */
  lemma {:induction false} SummaryOfCounted(ms: seq<PodMetric>, start: int)
    ensures var a, b := Newer(ms, start), Counted(ms, start);
      Ttfts(a) == Ttfts(b) && Tpots(a) == Tpots(b) && Prefills(a) == Prefills(b) && FirstTokens(a) == FirstTokens(b)
  {
    if ms != [] {
      var front, m := ms[..|ms| - 1], ms[|ms| - 1];
      SummaryOfCounted(front, start);
      var a, b := Newer(front, start), Counted(front, start);
      assert (a + [m])[..|a|] == a && (b + [m])[..|b|] == b;
      FirstTokensAppend(a, m);
      FirstTokensAppend(b, m);
    }
  }

  function Query(s: Metrics, start: int): map<string, Details> { map k | k in s :: Summary(Newer(s[k], start)) }

  ghost predicate DescribesAll(result: map<string, Details>, s: Metrics, start: int) {
    result.Keys == s.Keys && forall key :: key in s ==> Describes(result[key], s[key], start)
  }

  lemma QueryDescribes(s: Metrics, start: int)
    ensures DescribesAll(Query(s, start), s, start)
  {
    forall key | key in s ensures Describes(Query(s, start)[key], s[key], start) { SummaryDescribes(s[key], start); }
  }

  /**
   * Pruning and placeholders are invisible: a pod's details for any start its prunings have not passed are
   * those of the full history.
   */
  lemma PruningInvisible(ops: seq<Op>, window: int, key: string, start: int)
    requires CallableAll(ops) && Covered(ops, window, key, start)
    ensures key in Query(Run(ops, window), start) <==> key in Query(History(ops), start)
    ensures key in History(ops) ==> Query(Run(ops, window), start)[key] == Query(History(ops), start)[key]
  {
    RunAgrees(ops, window, key, start);
    if key in History(ops) {
      SummaryOfCounted(Run(ops, window)[key], start);
      SummaryOfCounted(History(ops)[key], start);
    }
  }

  /** When the clock does not run backwards and nothing was cleaned up, the pod's last add decides. */
  lemma {:induction false} LastAddDecides(ops: seq<Op>, window: int, key: string, start: int, last: nat)
    requires CallableAll(ops) && last < |ops| && ops[last].Add? && Key(ops[last].podIP) == key
    requires forall i, j :: 0 <= i < j < |ops| ==> ops[i].now <= ops[j].now
    requires forall i :: 0 <= i < |ops| ==> !ops[i].Cleanup?
    requires forall i :: last < i < |ops| ==> !(ops[i].Add? && Key(ops[i].podIP) == key)
    ensures Covered(ops, window, key, start) <==> start >= ops[last].now - 2 * window
  {
    if last == |ops| - 1 {
      if start >= ops[last].now - 2 * window { AllAdds(ops[..last], window, key, start, ops[last].now); }
    } else {
      LastAddDecides(ops[..|ops| - 1], window, key, start, last);
    }
  }

  lemma {:induction false} AllAdds(ops: seq<Op>, window: int, key: string, start: int, latest: int)
    requires CallableAll(ops) && start >= latest - 2 * window
    requires forall i :: 0 <= i < |ops| ==> !ops[i].Cleanup? && ops[i].now <= latest
    ensures Covered(ops, window, key, start)
  {
    if ops != [] { AllAdds(ops[..|ops| - 1], window, key, start, latest); }
  }

  lemma NewerAppend(ms: seq<PodMetric>, m: PodMetric, cutoff: int)
    ensures Newer(ms + [m], cutoff) == if m.timestamp > cutoff then Newer(ms, cutoff) + [m] else Newer(ms, cutoff)
  {
    assert (ms + [m])[..|ms|] == ms;
  }

  lemma RunAppend(ops: seq<Op>, window: int, op: Op)
    requires CallableAll(ops) && Callable(op)
    ensures CallableAll(ops + [op]) && Run(ops + [op], window) == Apply(Run(ops, window), window, op)
    ensures History(ops + [op]) == Remember(History(ops), op)
  {
    assert (ops + [op])[..|ops|] == ops;
  }

  /** Samples are stamped no later than the clock reading of their own add, and the clock runs forward. */
  predicate Stamped(ops: seq<Op>) {
    && (forall i :: 0 <= i < |ops| && ops[i].Add? ==> ops[i].metric.timestamp <= ops[i].now)
    && (forall i, j :: 0 <= i < j < |ops| ==> ops[i].now <= ops[j].now)
  }

  lemma {:induction false} OneAdd(ops: seq<Op>, podIP: string, m: PodMetric, now: int, window: int)
    requires CallableAll(ops) && podIP != "" && Key(podIP) == podIP
    ensures var longer := ops + [Add(podIP, m, now)];
      && CallableAll(longer) && podIP in Run(longer, window) && podIP in History(longer)
      && Run(longer, window)[podIP] == Newer(Held(Run(ops, window), podIP) + [m], now - 2 * window)
      && History(longer)[podIP] == Held(History(ops), podIP) + [m]
  {
    RunAppend(ops, window, Add(podIP, m, now));
  }

  lemma StampedTwo(ops: seq<Op>, podIP: string, m: PodMetric, n: PodMetric, s: int, t: int)
    requires |ops| == 2 && ops[0] == Add(podIP, m, s) && ops[1] == Add(podIP, n, t)
    requires m.timestamp <= s <= t && n.timestamp <= t
    ensures Stamped(ops)
  {
  }

  lemma FirstAdd(podIP: string, m: PodMetric, s: int, window: int) returns (ops: seq<Op>)
    requires podIP != "" && Key(podIP) == podIP
    ensures CallableAll(ops) && |ops| == 1 && ops[0] == Add(podIP, m, s)
    ensures Held(Run(ops, window), podIP) == Newer([m], s - 2 * window) && Held(History(ops), podIP) == [m]
  {
    OneAdd([], podIP, m, s, window);
    assert [] + [m] == [m];
    ops := [] + [Add(podIP, m, s)];
  }

  lemma TwoAdds(podIP: string, m: PodMetric, n: PodMetric, s: int, t: int, window: int) returns (ops: seq<Op>)
    requires podIP != "" && Key(podIP) == podIP
    ensures CallableAll(ops) && (m.timestamp <= s <= t && n.timestamp <= t ==> Stamped(ops))
    ensures podIP in Run(ops, window) && podIP in History(ops)
    ensures Run(ops, window)[podIP] == Newer(Newer([m], s - 2 * window) + [n], t - 2 * window)
    ensures History(ops)[podIP] == [m] + [n]
  {
    var first := FirstAdd(podIP, m, s, window);
    OneAdd(first, podIP, n, t, window);
    ops := first + [Add(podIP, n, t)];
    if m.timestamp <= s <= t && n.timestamp <= t { StampedTwo(ops, podIP, m, n, s, t); }
  }

  lemma TtftsAppend(ms: seq<PodMetric>, m: PodMetric)
    ensures Ttfts(ms + [m]) == if m.ttft > 0 then Ttfts(ms) + [m.ttft] else Ttfts(ms)
  {
    assert (ms + [m])[..|ms|] == ms;
  }

  /** Before the cutoff the answers can differ: the second add prunes the first sample. */
  lemma EarlierStartSees(window: nat) returns (ops: seq<Op>, start: int)
    ensures Stamped(ops) && CallableAll(ops) && "p" in Run(ops, window) && "p" in History(ops)
    ensures Query(Run(ops, window), start)["p"] != Query(History(ops), start)["p"]
  {
    var m, n := PodMetric(0, 1, 0, 0), PodMetric(2 * window, 1, 0, 0);
    ops := TwoAdds("p", m, n, 0, 2 * window, window);
    start := -1;
    assert [] + [m] == [m] && [] + [n] == [n];
    NewerAppend([], m, -2 * window);
    NewerAppend([], m, 0);
    NewerAppend([m], n, 0);
    NewerAppend([], m, -1);
    NewerAppend([], n, -1);
    NewerAppend([m], n, -1);
    TtftsAppend([], m);
    TtftsAppend([], n);
    TtftsAppend([m], n);
  }

  // --- the tracker's own loops ---------------------------------------------------------------------------

  method KeepNewer(ms: seq<PodMetric>, cutoff: int) returns (kept: seq<PodMetric>)
    ensures kept == Newer(ms, cutoff)
  {
    kept := [];
    for i := 0 to |ms|
      invariant kept == Newer(ms[..i], cutoff)
    {
      assert ms[..i + 1][..i] == ms[..i];
      if ms[i].timestamp > cutoff { kept := kept + [ms[i]]; }
    }
    assert ms[..|ms|] == ms;
  }

  method PercentileOf(v: seq<int>, p: nat) returns (r: int)
    requires Ascending(v) && p <= 100
    ensures r == Percentile(v, p)
  {
    if |v| == 0 { return 0; }
    if |v| == 1 { assert p * 0 == 0; return v[0]; }
    RankInRange(|v|, p);
    var rank := p * (|v| - 1);
    var whole := rank / 100;
    if rank % 100 == 0 { return v[whole]; }
    r := Hundredth(100 * v[whole] + (rank % 100) * (v[whole + 1] - v[whole]));
  }

  method Describe(values: seq<int>, sum: int) returns (l: Latency)
    requires sum == Total(values)
    ensures l == LatencyOf(values)
  {
    if |values| == 0 { return Latency(-1.0, -1, -1, -1, -1, -1, -1, 0); }
    SortSorts(values);
    var v := Sort(values);
    var p50 := PercentileOf(v, 50);
    var p90 := PercentileOf(v, 90);
    var p95 := PercentileOf(v, 95);
    var p99 := PercentileOf(v, 99);
    l := Latency(sum as real / |values| as real, v[0], v[|v| - 1], p50, p90, p95, p99, |values|);
  }

  lemma TotalAppend(v: seq<int>, x: int)
    ensures Total(v + [x]) == Total(v) + x
  {
    assert (v + [x])[..|v|] == v;
  }

  /** What the loop has gathered from the samples read so far. */
  ghost predicate Gathered(
    ms: seq<PodMetric>, ttfts: seq<int>, ttftSum: int, tpots: seq<int>, tpotSum: int, requests: set<int>, prefill: int)
  {
    && ttfts == Ttfts(ms) && tpots == Tpots(ms) && ttftSum == Total(ttfts) && tpotSum == Total(tpots)
    && requests == FirstTokens(ms) && prefill == Prefills(ms)
  }

  lemma GatherFirst(ms: seq<PodMetric>, i: nat)
    requires i < |ms|
    ensures var m, front, now := ms[i], ms[..i], ms[..i + 1];
      if m.ttft > 0 then
        && Ttfts(now) == Ttfts(front) + [m.ttft] && Total(Ttfts(now)) == Total(Ttfts(front)) + m.ttft
        && FirstTokens(now) == FirstTokens(front) + {m.timestamp} && Prefills(now) == Prefills(front) + m.prefill
      else
        Ttfts(now) == Ttfts(front) && FirstTokens(now) == FirstTokens(front) && Prefills(now) == Prefills(front)
  {
    assert ms[..i + 1][..i] == ms[..i] && ms[..i + 1] == ms[..i] + [ms[i]];
    FirstTokensAppend(ms[..i], ms[i]);
    TotalAppend(Ttfts(ms[..i]), ms[i].ttft);
  }

  lemma GatherLater(ms: seq<PodMetric>, i: nat)
    requires i < |ms|
    ensures var m, front, now := ms[i], ms[..i], ms[..i + 1];
      if m.tpot > 0 then Tpots(now) == Tpots(front) + [m.tpot] && Total(Tpots(now)) == Total(Tpots(front)) + m.tpot
      else Tpots(now) == Tpots(front)
  {
    assert ms[..i + 1][..i] == ms[..i];
    TotalAppend(Tpots(ms[..i]), ms[i].tpot);
  }

  /** One pass over the samples inside the window, then the figures of both lists. */
  method Summarise(ms: seq<PodMetric>) returns (d: Details)
    ensures d == Summary(ms)
  {
    var ttfts: seq<int>, tpots: seq<int>, ttftSum, tpotSum := [], [], 0, 0;
    var requests: set<int>, decode: nat, prefill := {}, 0, 0;
    for i := 0 to |ms|
      invariant Gathered(ms[..i], ttfts, ttftSum, tpots, tpotSum, requests, prefill) && decode == |tpots|
    {
      var m := ms[i];
      GatherFirst(ms, i);
      GatherLater(ms, i);
      if m.ttft > 0 {
        ttfts, ttftSum, requests, prefill := ttfts + [m.ttft], ttftSum + m.ttft, requests + {m.timestamp}, prefill + m.prefill;
      }
      if m.tpot > 0 {
        tpots, tpotSum, decode := tpots + [m.tpot], tpotSum + m.tpot, decode + 1;
      }
    }
    assert ms[..|ms|] == ms;
    var ttft := Describe(ttfts, ttftSum);
    var tpot := Describe(tpots, tpotSum);
    d := Details(ttft, tpot, |requests|, decode, prefill, decode + prefill);
  }

  class PodMetricsTracker {
    var podMetrics: Metrics
    const window: int

    constructor (window: int)
      ensures podMetrics == map[] && this.window == window
    {
      podMetrics, this.window := map[], window;
    }

    method InitPodKey(podIP: string, now: int)
      requires podIP != ""
      modifies this
      ensures podMetrics == Apply(old(podMetrics), window, Init(podIP, now))
    {
      var key := Key(podIP);
      if key !in podMetrics { podMetrics := podMetrics[key := [Placeholder(now)]]; }
    }

    method AddPodMetric(podIP: string, metric: PodMetric, now: int)
      requires podIP != ""
      modifies this
      ensures podMetrics == Apply(old(podMetrics), window, Add(podIP, metric, now))
    {
      var key := Key(podIP);
      podMetrics := podMetrics[key := (if key in podMetrics then podMetrics[key] else []) + [metric]];
      var kept := KeepNewer(podMetrics[key], now - 2 * window);
      podMetrics := podMetrics[key := kept];
    }

    method CleanupAllMetrics(now: int)
      modifies this
      ensures podMetrics == Apply(old(podMetrics), window, Cleanup(now))
    {
      var todo := podMetrics.Keys;
      while todo != {}
        invariant todo <= podMetrics.Keys == old(podMetrics).Keys
        invariant forall k :: k in todo ==> podMetrics[k] == old(podMetrics)[k]
        invariant forall k :: k in podMetrics && k !in todo ==> podMetrics[k] == Tidied(old(podMetrics)[k], window, now)
      {
        var key :| key in todo;
        var kept := KeepNewer(podMetrics[key], now - window);
        podMetrics := podMetrics[key := kept];
        if |kept| == 0 { podMetrics := podMetrics[key := [Placeholder(now)]]; }
        todo := todo - {key};
      }
    }

    method GetDetailedMetrics(start: int) returns (result: map<string, Details>)
      ensures result == Query(podMetrics, start)
    {
      result := map[];
      var todo := podMetrics.Keys;
      while todo != {}
        invariant todo <= podMetrics.Keys && result.Keys == podMetrics.Keys - todo
        invariant forall k :: k in result ==> result[k] == Summary(Newer(podMetrics[k], start))
      {
        var key :| key in todo;
        var valid := KeepNewer(podMetrics[key], start);
        var details := Summarise(valid);
        result := result[key := details];
        todo := todo - {key};
      }
    }
  }
}
