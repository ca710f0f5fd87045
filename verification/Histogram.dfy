/**
 * The histogram percentile: bucket bounds are parsed from a map's keys in whatever order it yields them,
 * sorted with the infinite bucket last, and scanned for the first whose share reaches the percentile.
 * Counts and bounds are reals; parsing a bound is a parameter.
 */
module Histograms {
  import opened Collections

  datatype Bucket = Bucket(bound: real, count: real, inf: bool)
  datatype Result = Ok(value: real) | Err

  const INFINITE := "+Inf"

  /** `count / total * 100 >= p`, where dividing a positive count by zero is infinite and 0/0 compares false. */
  predicate Reaches(count: real, total: real, p: real) {
    if total == 0.0 then count > 0.0 else count / total * 100.0 >= p
  }

  predicate Parses(parse: string -> Option<real>, key: string) { key == INFINITE || parse(key).Some? }

  function Entry(buckets: map<string, real>, parse: string -> Option<real>, key: string): Bucket
    requires key in buckets && Parses(parse, key)
  {
    if key == INFINITE then Bucket(0.0, buckets[key], true) else Bucket(parse(key).value, buckets[key], false)
  }

  // --- what the answer means, without any order ------------------------------------------------------------

  ghost predicate AllParse(buckets: map<string, real>, parse: string -> Option<real>) {
    forall k :: k in buckets ==> Parses(parse, k)
  }

  predicate FiniteKey(buckets: map<string, real>, key: string) { key in buckets && key != "+Inf" }

  ghost predicate ReachingKey(buckets: map<string, real>, total: real, p: real, key: string) {
    FiniteKey(buckets, key) && Reaches(buckets[key], total, p)
  }

  /**
   * The least finite bound whose count reaches the percentile; failing that, the greatest finite bound (0
   * without one) if the infinite bucket reaches it; failing that, 0.
   */
  ghost predicate IsPercentile(buckets: map<string, real>, parse: string -> Option<real>, total: real, p: real, r: real)
    requires AllParse(buckets, parse)
  {
    if exists k :: ReachingKey(buckets, total, p, k) then
      && (exists k :: ReachingKey(buckets, total, p, k) && parse(k).value == r)
      && (forall k :: ReachingKey(buckets, total, p, k) ==> r <= parse(k).value)
    else if "+Inf" in buckets && Reaches(buckets["+Inf"], total, p) then GreatestBound(buckets, parse, r)
    else r == 0.0
  }

  ghost predicate GreatestBound(buckets: map<string, real>, parse: string -> Option<real>, r: real)
    requires AllParse(buckets, parse)
  {
    if exists k :: FiniteKey(buckets, k) then
      && (exists k :: FiniteKey(buckets, k) && parse(k).value == r)
      && (forall k :: FiniteKey(buckets, k) ==> parse(k).value <= r)
    else r == 0.0
  }

  /** The map's iteration order cannot show: at most one answer fits. */
  lemma OneAnswer(buckets: map<string, real>, parse: string -> Option<real>, total: real, p: real, r: real, q: real)
    requires AllParse(buckets, parse)
    requires IsPercentile(buckets, parse, total, p, r) && IsPercentile(buckets, parse, total, p, q)
    ensures r == q
  {
  }

  // --- when the answers are in order ---------------------------------------------------------------------------

  ghost predicate InOrder(buckets: map<string, real>, parse: string -> Option<real>, total: real)
    requires AllParse(buckets, parse)
  {
    forall p, q, r, s ::
      (&& 0.0 <= p <= q <= 100.0
       && IsPercentile(buckets, parse, total, p, r) && IsPercentile(buckets, parse, total, q, s)) ==> r <= s
  }

  /** Some bucket, finite or infinite, holds every sample. */
  ghost predicate Full(buckets: map<string, real>, total: real) { exists k :: k in buckets && buckets[k] >= total }

  ghost predicate Tops(buckets: map<string, real>, k: string) {
    k in buckets && forall j :: j in buckets ==> buckets[j] <= buckets[k]
  }

  ghost predicate TopsFinite(buckets: map<string, real>, k: string) { Tops(buckets, k) && k != INFINITE }

  /** The answer of the fullest bucket is positive. */
  ghost predicate Positive(buckets: map<string, real>, parse: string -> Option<real>)
    requires AllParse(buckets, parse)
  {
    && (exists k :: Tops(buckets, k) && buckets[k] >= 0.0)
    && (if exists k :: TopsFinite(buckets, k) then forall k :: TopsFinite(buckets, k) ==> parse(k).value > 0.0
        else exists k :: FiniteKey(buckets, k) && parse(k).value > 0.0)
  }

  lemma ShareTimes(count: real, total: real)
    requires total != 0.0
    ensures count / total * 100.0 * total == count * 100.0
  {
  }

  /** Without division: a hundred times the count against the percentile of the total; of no total, any count. */
  lemma ReachIff(count: real, total: real, p: real)
    ensures total > 0.0 ==> (Reaches(count, total, p) <==> count * 100.0 >= p * total)
    ensures total == 0.0 ==> (Reaches(count, total, p) <==> count > 0.0)
    ensures total < 0.0 ==> (Reaches(count, total, p) <==> count * 100.0 <= p * total)
  {
    if total != 0.0 {
      var share := count / total * 100.0;
      ShareTimes(count, total);
      var n := if total > 0.0 then total else -total;
      if share >= p { Scale(p, share, n); } else { ScaleStrict(share, p, n); }
    }
  }

  lemma Scale(a: real, b: real, n: real)
    requires a <= b && n >= 0.0
    ensures a * n <= b * n
  {
    assert (b - a) * n >= 0.0;
  }

  lemma ScaleStrict(a: real, b: real, n: real)
    requires a < b && n > 0.0
    ensures a * n < b * n
  {
    assert (b - a) * n > 0.0;
  }

  lemma ReachDown(count: real, total: real, p: real, q: real)
    requires total >= 0.0 && p <= q && Reaches(count, total, q)
    ensures Reaches(count, total, p)
  {
  }

  lemma ReachUp(count: real, more: real, total: real, p: real)
    requires total >= 0.0 && count <= more && Reaches(count, total, p)
    ensures Reaches(more, total, p)
  {
    if total > 0.0 {
      ReachIff(count, total, p);
      ReachIff(more, total, p);
    }
  }

  lemma FullReaches(count: real, total: real, p: real)
    requires total > 0.0 && count >= total && p <= 100.0
    ensures Reaches(count, total, p)
  {
    ReachIff(count, total, p);
    Scale(p, 100.0, total);
  }

  /** At the share of the fullest bucket exactly the equally full ones are reached. */
  lemma TopShare(count: real, top: real, total: real)
    requires total > 0.0
    ensures Reaches(count, total, top / total * 100.0) <==> count >= top
  {
    ReachIff(count, total, top / total * 100.0);
    assert top / total * 100.0 * total == top * 100.0;
  }

  /** The order holds wherever the higher percentile is reached. */
  lemma OrderedWhenReached(buckets: map<string, real>, parse: string -> Option<real>, total: real, p: real, q: real, r: real, s: real)
    requires AllParse(buckets, parse) && total >= 0.0 && p <= q
    requires IsPercentile(buckets, parse, total, p, r) && IsPercentile(buckets, parse, total, q, s)
    requires exists k :: k in buckets && Reaches(buckets[k], total, q)
    ensures r <= s
  {
    forall k | k in buckets && Reaches(buckets[k], total, q) ensures Reaches(buckets[k], total, p) {
      ReachDown(buckets[k], total, p, q);
    }
    assert forall k :: ReachingKey(buckets, total, q, k) ==> ReachingKey(buckets, total, p, k);
    assert forall k :: ReachingKey(buckets, total, p, k) ==> FiniteKey(buckets, k);
    if forall k :: !ReachingKey(buckets, total, q, k) {
      var j :| j in buckets && Reaches(buckets[j], total, q);
      assert !ReachingKey(buckets, total, q, j) && j == INFINITE;
    }
  }

  lemma FullOrdered(buckets: map<string, real>, parse: string -> Option<real>, total: real)
    requires AllParse(buckets, parse) && total > 0.0 && Full(buckets, total)
    ensures InOrder(buckets, parse, total)
  {
    var k :| k in buckets && buckets[k] >= total;
    forall p, q, r, s | 0.0 <= p <= q <= 100.0 && IsPercentile(buckets, parse, total, p, r)
                        && IsPercentile(buckets, parse, total, q, s)
      ensures r <= s
    {
      FullReaches(buckets[k], total, q);
      OrderedWhenReached(buckets, parse, total, p, q, r, s);
    }
  }

  lemma ReachedTop(buckets: map<string, real>, total: real, p: real, k: string) returns (t: string)
    requires total > 0.0 && p >= 0.0 && k in buckets && Reaches(buckets[k], total, p)
    ensures Tops(buckets, t) && buckets[t] >= 0.0 && Reaches(buckets[t], total, p)
  {
    ReachIff(buckets[k], total, p);
    Scale(0.0, p, total);
    t := Fullest(buckets, k);
    ReachUp(buckets[k], buckets[t], total, p);
  }

  lemma TopNotPositive(buckets: map<string, real>, parse: string -> Option<real>, total: real, p: real, r: real, t: string)
    requires AllParse(buckets, parse) && !Positive(buckets, parse) && IsPercentile(buckets, parse, total, p, r)
    requires Tops(buckets, t) && buckets[t] >= 0.0 && Reaches(buckets[t], total, p)
    ensures r <= 0.0
  {
    if exists f :: TopsFinite(buckets, f) {
      var f :| TopsFinite(buckets, f) && parse(f).value <= 0.0;
      assert buckets[f] == buckets[t];
      assert ReachingKey(buckets, total, p, f);
    } else {
      assert forall f :: FiniteKey(buckets, f) ==> parse(f).value <= 0.0;
      assert forall f :: ReachingKey(buckets, total, p, f) ==> FiniteKey(buckets, f);
    }
  }

  /** With no positive top answer, every answer is at most the 0 of an unreached percentile. */
  lemma AtMostZero(buckets: map<string, real>, parse: string -> Option<real>, total: real, p: real, r: real)
    requires AllParse(buckets, parse) && total > 0.0 && p >= 0.0 && !Positive(buckets, parse)
    requires IsPercentile(buckets, parse, total, p, r)
    ensures r <= 0.0
  {
    if k :| k in buckets && Reaches(buckets[k], total, p) {
      var t := ReachedTop(buckets, total, p, k);
      TopNotPositive(buckets, parse, total, p, r, t);
    } else {
      assert forall f :: !ReachingKey(buckets, total, p, f);
    }
  }

  lemma {:induction false} FullestOf(buckets: map<string, real>, keys: set<string>) returns (t: string)
    requires keys != {} && keys <= buckets.Keys
    ensures t in keys && forall j :: j in keys ==> buckets[j] <= buckets[t]
    decreases |keys|
  {
    t :| t in keys;
    if keys != {t} {
      var rest := FullestOf(buckets, keys - {t});
      assert forall j :: j in keys ==> j == t || j in keys - {t};
      if buckets[t] <= buckets[rest] { t := rest; }
    }
  }

  lemma Fullest(buckets: map<string, real>, k: string) returns (t: string)
    requires k in buckets
    ensures Tops(buckets, t) && buckets[k] <= buckets[t]
  {
    t := FullestOf(buckets, buckets.Keys);
  }

  /** A least and a greatest bound of a set of finite keys. */
  lemma {:induction false} Extremes(parse: string -> Option<real>, keys: set<string>) returns (lo: string, hi: string)
    requires keys != {} && forall k :: k in keys ==> parse(k).Some?
    ensures lo in keys && hi in keys
    ensures forall k :: k in keys ==> parse(lo).value <= parse(k).value <= parse(hi).value
    decreases |keys|
  {
    lo :| lo in keys;
    hi := lo;
    if keys != {lo} {
      var a, b := Extremes(parse, keys - {lo});
      assert forall k :: k in keys ==> k == hi || k in keys - {hi};
      if parse(a).value <= parse(lo).value { lo := a; }
      if parse(hi).value <= parse(b).value { hi := b; }
    }
  }

  /** Every percentile has an answer. */
  lemma Answer(buckets: map<string, real>, parse: string -> Option<real>, total: real, p: real) returns (r: real)
    requires AllParse(buckets, parse)
    ensures IsPercentile(buckets, parse, total, p, r)
  {
    var finite := set k | k in buckets && FiniteKey(buckets, k);
    var reaching := set k | k in finite && Reaches(buckets[k], total, p);
    assert forall k :: ReachingKey(buckets, total, p, k) <==> k in reaching;
    assert forall k :: FiniteKey(buckets, k) <==> k in finite;
    if reaching != {} {
      var lo, hi := Extremes(parse, reaching);
      r := parse(lo).value;
    } else if INFINITE in buckets && Reaches(buckets[INFINITE], total, p) && finite != {} {
      var lo, hi := Extremes(parse, finite);
      r := parse(hi).value;
    } else {
      r := 0.0;
    }
  }

  /** At the share of the fullest bucket the answer is positive. */
  lemma TopAnswer(buckets: map<string, real>, parse: string -> Option<real>, total: real, t: string, r: real)
    requires AllParse(buckets, parse) && total > 0.0 && Positive(buckets, parse) && Tops(buckets, t)
    requires IsPercentile(buckets, parse, total, buckets[t] / total * 100.0, r)
    ensures r > 0.0
  {
    var p := buckets[t] / total * 100.0;
    forall k | k in buckets ensures Reaches(buckets[k], total, p) <==> Tops(buckets, k) {
      TopShare(buckets[k], buckets[t], total);
    }
    assert forall k :: ReachingKey(buckets, total, p, k) <==> TopsFinite(buckets, k);
    if forall k :: !TopsFinite(buckets, k) {
      assert !TopsFinite(buckets, t) && t == INFINITE;
    }
  }

  lemma Unordered(buckets: map<string, real>, parse: string -> Option<real>, total: real)
    requires AllParse(buckets, parse) && total > 0.0 && !Full(buckets, total) && Positive(buckets, parse)
    ensures !InOrder(buckets, parse, total)
  {
    var t :| Tops(buckets, t) && buckets[t] >= 0.0;
    var p := buckets[t] / total * 100.0;
    ReachIff(buckets[t], total, p);
    TopShare(total, buckets[t], total);
    ReachIff(total, total, p);
    assert 0.0 <= p <= 100.0;
    forall k | k in buckets ensures !Reaches(buckets[k], total, 100.0) { ReachIff(buckets[k], total, 100.0); }
    assert forall k :: !ReachingKey(buckets, total, 100.0, k);
    assert IsPercentile(buckets, parse, total, 100.0, 0.0);
    var r := Answer(buckets, parse, total, p);
    TopAnswer(buckets, parse, total, t, r);
  }

  /**
   * A higher percentile never gives a smaller answer, if and only if some bucket holds every sample or the
   * fullest bucket's answer is not positive. With no sample at all every percentile has the same answer.
   */
  lemma Monotone(buckets: map<string, real>, parse: string -> Option<real>, total: real)
    requires AllParse(buckets, parse) && total >= 0.0
    ensures InOrder(buckets, parse, total) <==> total == 0.0 || Full(buckets, total) || !Positive(buckets, parse)
  {
    if total == 0.0 {
      forall p, q, r, s | (&& 0.0 <= p <= q <= 100.0
          && IsPercentile(buckets, parse, total, p, r) && IsPercentile(buckets, parse, total, q, s))
        ensures r <= s
      {
        SameForAll(buckets, parse, p, q, r, s);
      }
    } else if Full(buckets, total) {
      FullOrdered(buckets, parse, total);
    } else if Positive(buckets, parse) {
      Unordered(buckets, parse, total);
    } else {
      NotPositiveOrdered(buckets, parse, total);
    }
  }

  lemma SameForAll(buckets: map<string, real>, parse: string -> Option<real>, p: real, q: real, r: real, s: real)
    requires AllParse(buckets, parse)
    requires IsPercentile(buckets, parse, 0.0, p, r) && IsPercentile(buckets, parse, 0.0, q, s)
    ensures r == s
  {
    assert forall k :: ReachingKey(buckets, 0.0, p, k) <==> ReachingKey(buckets, 0.0, q, k);
  }

  lemma NotPositiveOrdered(buckets: map<string, real>, parse: string -> Option<real>, total: real)
    requires AllParse(buckets, parse) && total > 0.0 && !Positive(buckets, parse)
    ensures InOrder(buckets, parse, total)
  {
    forall p, q, r, s | (&& 0.0 <= p <= q <= 100.0
        && IsPercentile(buckets, parse, total, p, r) && IsPercentile(buckets, parse, total, q, s))
      ensures r <= s
    {
      if exists k :: k in buckets && Reaches(buckets[k], total, q) {
        OrderedWhenReached(buckets, parse, total, p, q, r, s);
      } else {
        assert forall k :: !ReachingKey(buckets, total, q, k);
        AtMostZero(buckets, parse, total, p, r);
      }
    }
  }

  /** With positive bounds and counts that are not negative, only a full bucket keeps the order. */
  lemma PositiveBounds(buckets: map<string, real>, parse: string -> Option<real>, total: real)
    requires AllParse(buckets, parse) && total > 0.0 && exists k :: FiniteKey(buckets, k)
    requires forall k :: k in buckets ==> buckets[k] >= 0.0
    requires forall k :: FiniteKey(buckets, k) ==> parse(k).value > 0.0
    ensures InOrder(buckets, parse, total) <==> Full(buckets, total)
  {
    var k :| FiniteKey(buckets, k);
    var t := Fullest(buckets, k);
    assert Tops(buckets, t) && buckets[t] >= 0.0;
    assert forall f :: TopsFinite(buckets, f) ==> FiniteKey(buckets, f);
    Monotone(buckets, parse, total);
  }

  /** Without a full bucket the answer can drop: 1 at the 50th percentile, 0 at the 90th. */
  lemma DropsWithoutInfinite() returns (buckets: map<string, real>, parse: string -> Option<real>)
    ensures AllParse(buckets, parse)
    ensures IsPercentile(buckets, parse, 2.0, 50.0, 1.0) && IsPercentile(buckets, parse, 2.0, 90.0, 0.0)
  {
    buckets, parse := map["1" := 1.0], (k: string) => Some(1.0);
    assert ReachingKey(buckets, 2.0, 50.0, "1");
    assert forall k :: ReachingKey(buckets, 2.0, 90.0, k) ==> k == "1";
  }

  // --- the code -----------------------------------------------------------------------------------------------

  predicate Before(a: Bucket, b: Bucket) { if a.inf then false else if b.inf then true else a.bound < b.bound }

  ghost predicate Ordered(s: seq<Bucket>) { forall i, j :: 0 <= i < j < |s| ==> !Before(s[j], s[i]) }

  function Place(s: seq<Bucket>, b: Bucket): seq<Bucket> {
    if s == [] || !Before(b, s[|s| - 1]) then s + [b] else Place(s[..|s| - 1], b) + [s[|s| - 1]]
  }

  function Sorted(s: seq<Bucket>): seq<Bucket> {
    if s == [] then [] else Place(Sorted(s[..|s| - 1]), s[|s| - 1])
  }

  lemma {:induction false} PlaceKeeps(s: seq<Bucket>, b: Bucket)
    ensures forall x :: x in Place(s, b) <==> x in s || x == b
  {
    if s != [] && Before(b, s[|s| - 1]) {
      PlaceKeeps(s[..|s| - 1], b);
      assert s == s[..|s| - 1] + [s[|s| - 1]];
    }
  }

  lemma {:induction false} PlaceOrders(s: seq<Bucket>, b: Bucket)
    requires Ordered(s)
    ensures Ordered(Place(s, b))
  {
    if s != [] && Before(b, s[|s| - 1]) {
      var front, last := s[..|s| - 1], s[|s| - 1];
      PlaceOrders(front, b);
      PlaceKeeps(front, b);
      assert forall x :: x in front ==> !Before(last, x);
      assert forall i :: 0 <= i < |Place(front, b)| ==> Place(front, b)[i] in Place(front, b);
    }
  }

  lemma {:induction false} SortedIs(s: seq<Bucket>)
    ensures Ordered(Sorted(s)) && forall x :: x in Sorted(s) <==> x in s
  {
    if s != [] {
      SortedIs(s[..|s| - 1]);
      PlaceOrders(Sorted(s[..|s| - 1]), s[|s| - 1]);
      PlaceKeeps(Sorted(s[..|s| - 1]), s[|s| - 1]);
      assert s == s[..|s| - 1] + [s[|s| - 1]];
    }
  }

  /** The list holds the entries of these keys and nothing else. */
  ghost predicate Lists(list: seq<Bucket>, buckets: map<string, real>, parse: string -> Option<real>, keys: set<string>) {
    && (forall k :: k in keys ==> k in buckets && Parses(parse, k) && Entry(buckets, parse, k) in list)
    && (forall b :: b in list ==> exists k :: k in keys && k in buckets && Parses(parse, k) && Entry(buckets, parse, k) == b)
  }

  lemma ListsOneMore(list: seq<Bucket>, buckets: map<string, real>, parse: string -> Option<real>, keys: set<string>, k: string)
    requires Lists(list, buckets, parse, keys) && k in buckets && Parses(parse, k)
    ensures Lists(list + [Entry(buckets, parse, k)], buckets, parse, keys + {k})
  {
    var more := list + [Entry(buckets, parse, k)];
    forall b | b in more
      ensures exists j :: j in keys + {k} && j in buckets && Parses(parse, j) && Entry(buckets, parse, j) == b
    {
      if b in list {
        var j :| j in keys && j in buckets && Parses(parse, j) && Entry(buckets, parse, j) == b;
        assert j in keys + {k};
      } else {
        assert k in keys + {k};
      }
    }
  }

  /** Collects the buckets in any order; fails on the first bound that does not parse. */
  method Collect(buckets: map<string, real>, parse: string -> Option<real>) returns (ok: bool, list: seq<Bucket>)
    ensures ok <==> AllParse(buckets, parse)
    ensures ok ==> Lists(list, buckets, parse, buckets.Keys)
  {
    list := [];
    var todo := buckets.Keys;
    while todo != {}
      invariant todo <= buckets.Keys && Lists(list, buckets, parse, buckets.Keys - todo)
    {
      var key :| key in todo;
      if key != INFINITE && parse(key).None? { return false, []; }
      ListsOneMore(list, buckets, parse, buckets.Keys - todo, key);
      assert buckets.Keys - todo + {key} == buckets.Keys - (todo - {key});
      list := list + [Entry(buckets, parse, key)];
      todo := todo - {key};
    }
    assert buckets.Keys - {} == buckets.Keys;
    ok := true;
  }

  /** Nothing before position i reaches the percentile. */
  ghost predicate Passed(s: seq<Bucket>, total: real, p: real, i: nat) {
    i <= |s| && forall j :: 0 <= j < i ==> !Reaches(s[j].count, total, p)
  }

  ghost predicate Scannable(s: seq<Bucket>, buckets: map<string, real>, parse: string -> Option<real>) {
    AllParse(buckets, parse) && Ordered(s) && Lists(s, buckets, parse, buckets.Keys)
  }

  lemma PositionOf(s: seq<Bucket>, buckets: map<string, real>, parse: string -> Option<real>, k: string) returns (j: nat)
    requires Scannable(s, buckets, parse) && k in buckets
    ensures j < |s| && s[j] == Entry(buckets, parse, k)
  {
    assert Entry(buckets, parse, k) in s;
    j :| 0 <= j < |s| && s[j] == Entry(buckets, parse, k);
  }

  lemma KeyAt(s: seq<Bucket>, buckets: map<string, real>, parse: string -> Option<real>, i: nat) returns (k: string)
    requires Scannable(s, buckets, parse) && i < |s|
    ensures k in buckets && s[i] == Entry(buckets, parse, k)
  {
    assert s[i] in s;
    k :| k in buckets.Keys && k in buckets && Parses(parse, k) && Entry(buckets, parse, k) == s[i];
  }

  lemma StopsAtFinite(s: seq<Bucket>, buckets: map<string, real>, parse: string -> Option<real>, total: real, p: real, i: nat)
    requires Scannable(s, buckets, parse) && Passed(s, total, p, i) && i < |s|
    requires Reaches(s[i].count, total, p) && !s[i].inf
    ensures IsPercentile(buckets, parse, total, p, s[i].bound)
  {
    var k := KeyAt(s, buckets, parse, i);
    assert ReachingKey(buckets, total, p, k) && parse(k).value == s[i].bound;
    forall k' | ReachingKey(buckets, total, p, k') ensures s[i].bound <= parse(k').value {
      var j := PositionOf(s, buckets, parse, k');
      assert i <= j && (i < j ==> !Before(s[j], s[i]));
    }
  }

  lemma NoneReaching(s: seq<Bucket>, buckets: map<string, real>, parse: string -> Option<real>, total: real, p: real, i: nat)
    requires Scannable(s, buckets, parse) && Passed(s, total, p, i) && (i < |s| ==> s[i].inf)
    ensures forall k :: !ReachingKey(buckets, total, p, k)
    ensures forall k :: FiniteKey(buckets, k) ==> exists j :: 0 <= j < i && s[j] == Entry(buckets, parse, k)
  {
    forall k | FiniteKey(buckets, k) ensures exists j :: 0 <= j < i && s[j] == Entry(buckets, parse, k) {
      var j := PositionOf(s, buckets, parse, k);
    }
    forall k ensures !ReachingKey(buckets, total, p, k) {
      if FiniteKey(buckets, k) {
        var j :| 0 <= j < i && s[j] == Entry(buckets, parse, k);
      }
    }
  }

  lemma StopsAtInfinite(s: seq<Bucket>, buckets: map<string, real>, parse: string -> Option<real>, total: real, p: real, i: nat)
    requires Scannable(s, buckets, parse) && Passed(s, total, p, i) && i < |s|
    requires Reaches(s[i].count, total, p) && s[i].inf
    ensures IsPercentile(buckets, parse, total, p, if i == 0 then 0.0 else s[i - 1].bound)
  {
    NoneReaching(s, buckets, parse, total, p, i);
    var inf := KeyAt(s, buckets, parse, i);
    assert inf == INFINITE;
    if i > 0 {
      var k := KeyAt(s, buckets, parse, i - 1);
      assert FiniteKey(buckets, k) && parse(k).value == s[i - 1].bound;
      forall k' | FiniteKey(buckets, k') ensures parse(k').value <= s[i - 1].bound {
        var j :| 0 <= j < i && s[j] == Entry(buckets, parse, k');
        assert j < i - 1 ==> !Before(s[i - 1], s[j]);
      }
    }
  }

  lemma NeverStops(s: seq<Bucket>, buckets: map<string, real>, parse: string -> Option<real>, total: real, p: real)
    requires Scannable(s, buckets, parse) && Passed(s, total, p, |s|)
    ensures IsPercentile(buckets, parse, total, p, 0.0)
  {
    NoneReaching(s, buckets, parse, total, p, |s|);
    if INFINITE in buckets { var j := PositionOf(s, buckets, parse, INFINITE); }
  }

  method GetPercentile(buckets: map<string, real>, parse: string -> Option<real>, total: real, p: real) returns (r: Result)
    ensures r.Err? <==> p < 0.0 || p > 100.0 || !AllParse(buckets, parse)
    ensures r.Ok? ==> IsPercentile(buckets, parse, total, p, r.value)
  {
    if p < 0.0 || p > 100.0 { return Err; }
    var ok, list := Collect(buckets, parse);
    if !ok { return Err; }
    SortedIs(list);
    list := Sorted(list);
    var lastBound := 0.0;
    for i := 0 to |list|
      invariant Passed(list, total, p, i) && lastBound == if i == 0 then 0.0 else list[i - 1].bound
    {
      if Reaches(list[i].count, total, p) {
        if list[i].inf {
          StopsAtInfinite(list, buckets, parse, total, p, i);
          return Ok(lastBound);
        }
        StopsAtFinite(list, buckets, parse, total, p, i);
        return Ok(list[i].bound);
      }
      lastBound := list[i].bound;
    }
    NeverStops(list, buckets, parse, total, p);
    r := Ok(0.0);
  }
}
