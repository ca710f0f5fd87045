/**
 * MOONCAKE: route to the pod whose expected latency, (batch size + virtual queue + 1) / speed, is
 * least. Speeds and latencies are exact reals here; the source compares floating-point quotients.
 */
module Mooncake {
  import opened Collections
  import opened ScoreBook

  type Speeds = map<Pod, real>

  function Batch(b: Batches, p: Pod): nat { if p in b then b[p] else 0 }

  /** The pod's queue with this request in it. */
  function Queue(b: Batches, vq: Load, p: Pod): int { Batch(b, p) + Get(vq, p) + 1 }

  function Latency(b: Batches, s: Speeds, vq: Load, p: Pod): real
    requires p in s && s[p] > 0.0
  {
    Queue(b, vq, p) as real / s[p]
  }

  function Candidates(s: Speeds): set<Pod> { set p | p in s && s[p] > 0.0 }

  /** `p` beats `q` in (latency, queue, podIP) order. */
  predicate Beats(b: Batches, s: Speeds, vq: Load, p: Pod, q: Pod)
    requires p in Candidates(s) && q in Candidates(s)
  {
    var lp, lq := Latency(b, s, vq, p), Latency(b, s, vq, q);
    var np, nq := Queue(b, vq, p), Queue(b, vq, q);
    lp < lq || (lp == lq && (np < nq || (np == nq && Less(p, q))))
  }

  /** `p` is in `ps` and beats all the others there. */
  ghost predicate Leads(b: Batches, s: Speeds, vq: Load, p: Pod, ps: set<Pod>)
    requires ps <= Candidates(s)
  {
    p in ps && forall q :: q in ps && q != p ==> Beats(b, s, vq, p, q)
  }

  ghost predicate Best(b: Batches, s: Speeds, vq: Load, p: Pod) {
    Leads(b, s, vq, p, Candidates(s))
  }

  lemma LeaderStep(b: Batches, s: Speeds, vq: Load, p: Pod, ps: set<Pod>, q: Pod)
    requires ps <= Candidates(s) && q in Candidates(s) && q !in ps && Leads(b, s, vq, p, ps)
    ensures Leads(b, s, vq, if Beats(b, s, vq, q, p) then q else p, ps + {q})
  {
    LessTotal(p, q);
    if Beats(b, s, vq, q, p) {
      forall r | r in ps && r != p ensures Beats(b, s, vq, q, r) {
        BeatsTransitive(b, s, vq, q, p, r);
      }
    }
  }

  lemma BestUnique(b: Batches, s: Speeds, vq: Load, p: Pod, q: Pod)
    requires Best(b, s, vq, p) && Best(b, s, vq, q)
    ensures p == q
  {
    if p != q {
      assert Beats(b, s, vq, p, q) && Beats(b, s, vq, q, p);
      LessTotal(p, q);
    }
  }

  /**
   * In figures: no pod `q` with a positive speed has a smaller quotient of queue and speed than `p`; of those with
   * the same quotient none has a shorter queue, and of those with the same queue `p` has the first name.
   */
  ghost predicate Fastest(b: Batches, s: Speeds, vq: Load, p: Pod) {
    && p in s && s[p] > 0.0
    && forall q :: q in s && s[q] > 0.0 && q != p ==>
         var np := (if p in b then b[p] else 0) + Get(vq, p) + 1;
         var nq := (if q in b then b[q] else 0) + Get(vq, q) + 1;
         Ahead(np, s[p], nq, s[q], Before(p, q))
  }

  /** np / sp is smaller than nq / sq, or as small and np smaller than nq, or both equal and `first`. */
  predicate Ahead(np: int, sp: real, nq: int, sq: real, first: bool) {
    var x, y := np as real * sq, nq as real * sp;
    x < y || (x == y && (np < nq || (np == nq && first)))
  }

  lemma CompareQuotients(a: real, x: real, c: real, y: real)
    requires x > 0.0 && y > 0.0
    ensures a / x < c / y <==> a * y < c * x
    ensures a / x == c / y <==> a * y == c * x
  {
    var u, v := a / x, c / y;
    assert a == u * x && c == v * y;
    assert a * y == u * (x * y) && c * x == v * (x * y);
    ScaleOrder(u, v, x * y);
  }

  lemma ScaleOrder(u: real, v: real, z: real)
    requires z > 0.0
    ensures u < v <==> u * z < v * z
    ensures u == v <==> u * z == v * z
  {
    assert (v - u) * z == v * z - u * z;
  }

  lemma OrderInFigures(np: int, sp: real, nq: int, sq: real, first: bool, lp: real, lq: real)
    requires sp > 0.0 && sq > 0.0 && lp == np as real / sp && lq == nq as real / sq
    ensures lp < lq || (lp == lq && (np < nq || (np == nq && first))) <==> Ahead(np, sp, nq, sq, first)
  {
    CompareQuotients(np as real, sp, nq as real, sq);
  }

  lemma BeatsInFigures(b: Batches, s: Speeds, vq: Load, p: Pod, q: Pod)
    requires p in Candidates(s) && q in Candidates(s)
    ensures Beats(b, s, vq, p, q) <==> Ahead(Queue(b, vq, p), s[p], Queue(b, vq, q), s[q], Before(p, q))
  {
    LessExact(p, q);
    OrderInFigures(Queue(b, vq, p), s[p], Queue(b, vq, q), s[q], Before(p, q), Latency(b, s, vq, p), Latency(b, s, vq, q));
  }

  lemma BestIsFastest(b: Batches, s: Speeds, vq: Load, p: Pod)
    ensures Best(b, s, vq, p) <==> Fastest(b, s, vq, p)
  {
    if p in Candidates(s) {
      forall q | q in Candidates(s)
        ensures Beats(b, s, vq, p, q) <==> Ahead(Queue(b, vq, p), s[p], Queue(b, vq, q), s[q], Before(p, q))
      {
        BeatsInFigures(b, s, vq, p, q);
      }
    }
  }

  lemma LatencyPositive(b: Batches, s: Speeds, vq: Load, p: Pod)
    requires p in Candidates(s) && NonNegative(vq)
    ensures Latency(b, s, vq, p) > 0.0
  {
  }

  lemma BeatsTransitive(b: Batches, s: Speeds, vq: Load, p: Pod, q: Pod, r: Pod)
    requires {p, q, r} <= Candidates(s)
    requires Beats(b, s, vq, p, q) && Beats(b, s, vq, q, r)
    ensures Beats(b, s, vq, p, r)
  {
    if Less(p, q) && Less(q, r) {
      LessTransitive(p, q, r);
    }
  }

  /** The two maps behind the two mutexes. Methods here run alone; ScoreBook interleaves them. */
  class Book {
    var virtualQueue: Load
    var requestPod: map<Request, Pod>

    constructor ()
      ensures virtualQueue == map[] && requestPod == map[]
    {
      virtualQueue, requestPod := map[], map[];
    }

    /** One pass over the speeds in any order. An empty podIP is never returned, even as the minimum. */
    method Select(batches: Batches, speeds: Speeds) returns (best: Pod)
      requires NonNegative(virtualQueue)
      ensures (forall p :: p in speeds ==> speeds[p] <= 0.0) ==> best == ""
      ensures (exists p :: p in speeds && speeds[p] > 0.0) ==> Fastest(batches, speeds, virtualQueue, best)
    {
      var bestLatency, bestQueue := -1.0, -1;
      best := "";
      var todo := speeds.Keys;
      ghost var seen: set<Pod> := {};
      while todo != {}
        invariant todo <= speeds.Keys
        invariant seen == Candidates(speeds) - todo
        invariant seen == {} ==> bestLatency < 0.0 && best == ""
        invariant seen != {} ==> Leads(batches, speeds, virtualQueue, best, seen)
        invariant seen != {} ==> bestQueue == Queue(batches, virtualQueue, best)
        invariant seen != {} ==> bestLatency == Latency(batches, speeds, virtualQueue, best)
      {
        var podIP :| podIP in todo;
        todo := todo - {podIP};
        if speeds[podIP] <= 0.0 {
          continue;
        }
        var vq := if podIP in virtualQueue then virtualQueue[podIP] else 0;
        var queue := (if podIP in batches then batches[podIP] else 0) + vq + 1;
        var latency := queue as real / speeds[podIP];
        if seen != {} {
          LatencyPositive(batches, speeds, virtualQueue, best);
          LeaderStep(batches, speeds, virtualQueue, best, seen, podIP);
        }
        if bestLatency < 0.0 || latency < bestLatency
           || (latency == bestLatency && queue < bestQueue)
           || (latency == bestLatency && queue == bestQueue && Less(podIP, best))
        {
          bestLatency, bestQueue, best := latency, queue, podIP;
        }
        seen := seen + {podIP};
      }
      if p :| p in speeds && speeds[p] > 0.0 { assert p in Candidates(speeds); }
      BestIsFastest(batches, speeds, virtualQueue, best);
    }

    method Score(batches: Batches, speeds: Speeds, request: Request) returns (selected: Pod, ok: bool)
      requires NonNegative(virtualQueue)
      modifies this
      ensures ok <==> selected != ""
      ensures ok ==> Fastest(batches, speeds, old(virtualQueue), selected)
      ensures ok ==> virtualQueue == old(virtualQueue)[selected := Get(old(virtualQueue), selected) + 1]
      ensures ok ==> requestPod == old(requestPod)[request := selected]
      ensures !ok ==> (forall p :: p in speeds ==> speeds[p] <= 0.0) || Fastest(batches, speeds, virtualQueue, "")
      ensures !ok ==> unchanged(this)
    {
      selected := Select(batches, speeds);
      ok := selected != "";
      if ok {
        virtualQueue := virtualQueue[selected := (if selected in virtualQueue then virtualQueue[selected] else 0) + 1];
        requestPod := requestPod[request := selected];
      }
    }

    /** DecrementMooncakeVirtualQueue and RollbackMooncakeForRequest, which do the same. */
    method Undo(request: Request) returns (done: bool)
      modifies this
      ensures done <==> request in old(requestPod)
      ensures done ==> virtualQueue == LessBy(old(virtualQueue), old(requestPod)[request], 1)
      ensures done ==> requestPod == old(requestPod) - {request}
      ensures !done ==> unchanged(this)
    {
      done := request in requestPod;
      if !done { return; }
      var podIP := requestPod[request];
      requestPod := requestPod - {request};
      virtualQueue := virtualQueue[podIP := (if podIP in virtualQueue then virtualQueue[podIP] else 0) - 1];
      if virtualQueue[podIP] < 0 {
        virtualQueue := virtualQueue[podIP := 0];
      }
    }
  }

  // --- the interleaved book ---------------------------------------------------------------------

  /** A run in which every scorer charges 1, to whichever pod it selected. */
  ghost predicate MooncakeRun(s: State, steps: seq<Step>, s': State)
    decreases |steps|
  {
    if steps == [] then s' == s
    else
      && Enabled(s, steps[0]) && !steps[0].Cleanup? && (steps[0].Charge? ==> steps[0].entry.amount == 1)
      && MooncakeRun(Apply(s, steps[0]), steps[1..], s')
  }

  ghost predicate Units(s: State) {
    && (forall r :: r in s.records ==> s.records[r].amount == 1)
    && (forall t :: t in s.pcs && !s.pcs[t].Idle? && !s.pcs[t].Reading? ==> s.pcs[t].entry.amount == 1)
    && (forall i :: 0 <= i < |s.lost| ==> s.lost[i].amount == 1)
  }

  lemma {:induction false} MooncakeRunIsRun(s: State, steps: seq<Step>, s': State)
    requires MooncakeRun(s, steps, s') && Units(s)
    ensures Run(s, steps, s') && Units(s')
    decreases |steps|
  {
    if steps != [] {
      MooncakeRunIsRun(Apply(s, steps[0]), steps[1..], s');
    }
  }

  lemma {:induction false} NoCleanups(s: State, steps: seq<Step>, s': State)
    requires MooncakeRun(s, steps, s')
    ensures forall i :: 0 <= i < |steps| ==> !steps[i].Cleanup?
    decreases |steps|
  {
    if steps != [] {
      NoCleanups(Apply(s, steps[0]), steps[1..], s');
      assert forall i :: 0 < i < |steps| ==> steps[i] == steps[1..][i - 1];
    }
  }

  lemma {:induction false} UnitSum<K>(m: map<K, int>, ones: set<K>)
    requires ones <= m.Keys
    requires forall k :: k in m ==> m[k] == if k in ones then 1 else 0
    ensures Sum(m) == |ones|
    decreases |m|
  {
    if m == map[] {
      assert ones == {};
    } else {
      var k :| k in m;
      SumSplit(m, k);
      assert (m - {k}).Keys == m.Keys - {k};
      UnitSum(m - {k}, ones - {k});
    }
  }

  function RecordedOn(s: State, p: Pod): set<Request> { set r | r in s.records && s.records[r].pod == p }

  /** Completions between their two sections and scorers that have not recorded yet. */
  function CarriedOn(s: State, p: Pod): set<Thread> {
    set t | t in s.pcs && !s.pcs[t].Idle? && !s.pcs[t].Reading? && s.pcs[t].entry.pod == p
  }

  /**
   * MOONCAKE accounting under every interleaving, by counting: when no request id is scored twice, a
   * virtual queue is the number of requests recorded on the pod plus the number of calls
   * on it caught between their two critical sections. It is never negative, which is what the next
   * selection needs of it.
   */
  lemma QueueCounts(s0: State, steps: seq<Step>, s: State, p: Pod)
    requires Initial(s0) && MooncakeRun(s0, steps, s) && FreshIds(steps)
    ensures Get(s.load, p) == |RecordedOn(s, p)| + |CarriedOn(s, p)|
    ensures NonNegative(s.load)
  {
    MooncakeRunIsRun(s0, steps, s);
    Accounting(s0, steps, s, p);
    NoCleanups(s0, steps, s);
    FreshIdsSettle(s0, steps, s);
    UnitSum(RecordShares(s.records, p), RecordedOn(s, p));
    UnitSum(CarriedShares(s.pcs, p), CarriedOn(s, p));
    forall q ensures Get(s.load, q) >= 0 { Accounting(s0, steps, s, q); }
  }

  // --- the greedy bound -------------------------------------------------------------------------

  /** One scoring against fixed speeds and batch sizes: the best pod's queue grows, or nothing changes. */
  ghost predicate Scores(b: Batches, s: Speeds, vq: Load, vq': Load) {
    vq' == vq || exists p :: Best(b, s, vq, p) && vq' == Raise(vq, Entry(p, 1))
  }

  ghost predicate ScoreRun(b: Batches, s: Speeds, vqs: seq<Load>) {
    && |vqs| > 0 && vqs[0] == map[]
    && forall i :: 0 < i < |vqs| ==> Scores(b, s, vqs[i - 1], vqs[i])
  }

  /** a / y <= c / x, cross-multiplied. */
  predicate AtMost(a: real, x: real, c: real, y: real) { a * x <= c * y }

  function Held(b: Batches, vq: Load, p: Pod): real { (Batch(b, p) + Get(vq, p)) as real }

  /** `p` is not ahead of `q` by more than one request at `q`. */
  predicate Level(b: Batches, s: Speeds, vq: Load, p: Pod, q: Pod)
    requires p in s && q in s
  {
    AtMost(Held(b, vq, p), s[q], Held(b, vq, q) + 1.0, s[p])
  }

  /** No pod that got a request is ahead of any other by more than the request that got it there. */
  ghost predicate Greedy(b: Batches, s: Speeds, vq: Load) {
    forall p, q :: p in Candidates(s) && q in Candidates(s) && Get(vq, p) > 0 ==> Level(b, s, vq, p, q)
  }

  lemma CrossMultiply(a: real, x: real, c: real, y: real)
    requires x > 0.0 && y > 0.0 && a / x <= c / y
    ensures AtMost(a, y, c, x)
  {
    var u, v := a / x, c / y;
    assert a == u * x && c == v * y;
    assert u * (x * y) <= v * (x * y);
  }

  lemma AtMostMore(a: real, x: real, c: real, c': real, y: real)
    requires AtMost(a, x, c, y) && c <= c' && y > 0.0
    ensures AtMost(a, x, c', y)
  {
  }

  lemma LevelOfBest(b: Batches, s: Speeds, vq: Load, best: Pod, q: Pod)
    requires Best(b, s, vq, best) && q in Candidates(s)
    ensures AtMost(Held(b, vq, best) + 1.0, s[q], Held(b, vq, q) + 1.0, s[best])
  {
    if q != best {
      assert Beats(b, s, vq, best, q);
      CrossMultiply(Held(b, vq, best) + 1.0, s[best], Held(b, vq, q) + 1.0, s[q]);
    }
  }

  lemma LevelAfter(b: Batches, s: Speeds, vq: Load, best: Pod, p: Pod, q: Pod)
    requires Best(b, s, vq, best) && p in Candidates(s) && q in Candidates(s)
    requires p != best ==> Level(b, s, vq, p, q)
    ensures Level(b, s, Raise(vq, Entry(best, 1)), p, q)
  {
    var vq' := Raise(vq, Entry(best, 1));
    assert Held(b, vq, q) <= Held(b, vq', q);
    if p == best {
      LevelOfBest(b, s, vq, best, q);
      assert Held(b, vq', p) == Held(b, vq, best) + 1.0;
    } else {
      assert Held(b, vq', p) == Held(b, vq, p);
    }
    AtMostMore(Held(b, vq', p), s[q], Held(b, vq, q) + 1.0, Held(b, vq', q) + 1.0, s[p]);
  }

  lemma GreedyKept(b: Batches, s: Speeds, vq: Load, vq': Load)
    requires NonNegative(vq) && Greedy(b, s, vq) && Scores(b, s, vq, vq')
    ensures NonNegative(vq') && Greedy(b, s, vq')
  {
    if vq' != vq {
      var best :| Best(b, s, vq, best) && vq' == Raise(vq, Entry(best, 1));
      assert forall p :: Get(vq', p) == Get(vq, p) + if p == best then 1 else 0;
      forall p, q | p in Candidates(s) && q in Candidates(s) && Get(vq', p) > 0 ensures Level(b, s, vq', p, q) {
        LevelAfter(b, s, vq, best, p, q);
      }
    }
  }

  /** Greedy balance with any fixed batch sizes, after every score-only run. */
  lemma {:induction false} GreedyBalance(b: Batches, s: Speeds, vqs: seq<Load>)
    requires ScoreRun(b, s, vqs)
    ensures NonNegative(vqs[|vqs| - 1]) && Greedy(b, s, vqs[|vqs| - 1])
    decreases |vqs|
  {
    if |vqs| > 1 {
      GreedyBalance(b, s, vqs[..|vqs| - 1]);
      GreedyKept(b, s, vqs[|vqs| - 2], vqs[|vqs| - 1]);
    }
  }

  ghost function TotalSpeed(s: Speeds, ps: set<Pod>): real
    requires ps <= s.Keys
  {
    if ps == {} then 0.0 else var p :| p in ps; s[p] + TotalSpeed(s, ps - {p})
  }

  ghost function TotalQueue(vq: Load, ps: set<Pod>): int {
    if ps == {} then 0 else var p :| p in ps; Get(vq, p) + TotalQueue(vq, ps - {p})
  }

  lemma {:induction false} TotalSpeedSplit(s: Speeds, ps: set<Pod>, p: Pod)
    requires ps <= s.Keys && p in ps
    ensures TotalSpeed(s, ps) == s[p] + TotalSpeed(s, ps - {p})
  {
    var q :| q in ps && TotalSpeed(s, ps) == s[q] + TotalSpeed(s, ps - {q});
    if q != p {
      TotalSpeedSplit(s, ps - {q}, p);
      TotalSpeedSplit(s, ps - {p}, q);
      assert ps - {q} - {p} == ps - {p} - {q};
    }
  }

  lemma {:induction false} TotalQueueSplit(vq: Load, ps: set<Pod>, p: Pod)
    requires p in ps
    ensures TotalQueue(vq, ps) == Get(vq, p) + TotalQueue(vq, ps - {p})
  {
    var q :| q in ps && TotalQueue(vq, ps) == Get(vq, q) + TotalQueue(vq, ps - {q});
    if q != p {
      TotalQueueSplit(vq, ps - {q}, p);
      TotalQueueSplit(vq, ps - {p}, q);
      assert ps - {q} - {p} == ps - {p} - {q};
    }
  }

  /** The pairwise balance, added up over the pods other than `p`. */
  lemma {:induction false} AddUp(s: Speeds, vq: Load, p: Pod, ps: set<Pod>)
    requires Greedy(map[], s, vq) && p in Candidates(s) && Get(vq, p) > 0
    requires ps <= Candidates(s)
    ensures AtMost(Get(vq, p) as real, TotalSpeed(s, ps), (TotalQueue(vq, ps) + |ps|) as real, s[p])
  {
    if ps != {} {
      var q :| q in ps;
      AddUp(s, vq, p, ps - {q});
      TotalSpeedSplit(s, ps, q);
      TotalQueueSplit(vq, ps, q);
      assert Level(map[], s, vq, p, q) && Held(map[], vq, p) == Get(vq, p) as real;
      AddProducts(Get(vq, p) as real, s[q], TotalSpeed(s, ps - {q}),
                  Held(map[], vq, q) + 1.0, (TotalQueue(vq, ps - {q}) + |ps - {q}|) as real, s[p]);
    }
  }

  lemma AddProducts(n: real, x: real, y: real, a: real, c: real, k: real)
    requires AtMost(n, x, a, k) && AtMost(n, y, c, k)
    ensures AtMost(n, x + y, a + c, k)
  {
  }

  /** How many scorings of the run succeeded. */
  function Accepted(vqs: seq<Load>): nat {
    if |vqs| <= 1 then 0 else Accepted(vqs[..|vqs| - 1]) + if vqs[|vqs| - 1] != vqs[|vqs| - 2] then 1 else 0
  }

  lemma {:induction false} QueuesHoldAccepted(b: Batches, s: Speeds, vqs: seq<Load>)
    requires ScoreRun(b, s, vqs)
    ensures TotalQueue(vqs[|vqs| - 1], Candidates(s)) == Accepted(vqs)
    decreases |vqs|
  {
    var c := Candidates(s);
    if |vqs| == 1 {
      EmptyQueues(c);
    } else {
      var vq, vq' := vqs[|vqs| - 2], vqs[|vqs| - 1];
      QueuesHoldAccepted(b, s, vqs[..|vqs| - 1]);
      if vq' != vq {
        var p :| Best(b, s, vq, p) && vq' == Raise(vq, Entry(p, 1));
        TotalQueueSplit(vq, c, p);
        TotalQueueSplit(vq', c, p);
        SameQueues(vq, vq', c - {p});
      }
    }
  }

  lemma {:induction false} EmptyQueues(ps: set<Pod>)
    ensures TotalQueue(map[], ps) == 0
  {
    if ps != {} {
      var p :| p in ps;
      TotalQueueSplit(map[], ps, p);
      EmptyQueues(ps - {p});
    }
  }

  lemma {:induction false} SameQueues(vq: Load, vq': Load, ps: set<Pod>)
    requires forall p :: p in ps ==> Get(vq, p) == Get(vq', p)
    ensures TotalQueue(vq, ps) == TotalQueue(vq', ps)
  {
    if ps != {} {
      var p :| p in ps;
      TotalQueueSplit(vq, ps, p);
      TotalQueueSplit(vq', ps, p);
      SameQueues(vq, vq', ps - {p});
    }
  }

  lemma AtMostSelf(n: real, k: real)
    ensures AtMost(n, k, n, k)
  {
  }

  lemma ZeroAtMost(x: real, c: nat, y: real)
    requires y > 0.0
    ensures AtMost(0.0, x, c as real, y)
  {
  }

  lemma BoundOf(s: Speeds, vq: Load, p: Pod)
    requires Greedy(map[], s, vq) && p in Candidates(s) && Get(vq, p) > 0
    ensures AtMost(Get(vq, p) as real, TotalSpeed(s, Candidates(s)),
                   (TotalQueue(vq, Candidates(s)) + |Candidates(s)| - 1) as real, s[p])
  {
    var c := Candidates(s);
    var n, rest := Get(vq, p) as real, (TotalQueue(vq, c - {p}) + |c - {p}|) as real;
    AddUp(s, vq, p, c - {p});
    AtMostSelf(n, s[p]);
    AddProducts(n, s[p], TotalSpeed(s, c - {p}), n, rest, s[p]);
    TotalSpeedSplit(s, c, p);
    TotalQueueSplit(vq, c, p);
    assert (TotalQueue(vq, c) + |c| - 1) as real == n + rest;
  }

  /**
   * The MOONCAKE greedy bound: with idle engines, after N accepted requests over k pods no pod holds
   * more than its speed's share of N + k - 1 requests.
   */
  lemma GreedyBound(s: Speeds, vqs: seq<Load>, p: Pod)
    requires ScoreRun(map[], s, vqs) && p in Candidates(s)
    ensures AtMost(Get(vqs[|vqs| - 1], p) as real, TotalSpeed(s, Candidates(s)),
                   (Accepted(vqs) + |Candidates(s)| - 1) as real, s[p])
  {
    var vq := vqs[|vqs| - 1];
    GreedyBalance(map[], s, vqs);
    QueuesHoldAccepted(map[], s, vqs);
    if Get(vq, p) > 0 {
      BoundOf(s, vq, p);
    } else {
      assert Get(vq, p) as real == 0.0;
      ZeroAtMost(TotalSpeed(s, Candidates(s)), Accepted(vqs) + |Candidates(s)| - 1, s[p]);
    }
  }
}
