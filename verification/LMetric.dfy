/**
 * LMETRIC: route to the pod where (outstanding new prefill tokens + this request's) x (batch size + 1)
 * is least. Int64 arithmetic is taken as exact.
 */
module LMetric {
  import opened Collections
  import opened ScoreBook

  /** A KV-cache hit ratio. */
  type Percent = h: int | 0 <= h <= 100

  type Hits = map<Pod, Percent>

  /** `n` is the whole part of the share of the prompt that is not cached. */
  predicate WholePart(n: int, tokens: nat, hit: Percent) { 100 * n <= tokens * (100 - hit) < 100 * (n + 1) }

  /** Prompt tokens the pod must still prefill; Go's truncating division agrees as nothing is negative. */
  function NewTokens(tokens: nat, hit: Percent): (n: nat)
    ensures WholePart(n, tokens, hit)
    ensures n <= tokens
  {
    assert tokens * (100 - hit) <= tokens * 100;
    tokens * (100 - hit) / 100
  }

  function BatchSize(b: Batches, p: Pod): nat { (if p in b then b[p] else 0) + 1 }

  function ScoreOf(tokens: nat, hits: Hits, b: Batches, load: Load, p: Pod): int
    requires p in hits
  {
    (Get(load, p) + NewTokens(tokens, hits[p])) * BatchSize(b, p)
  }

  /** `p` is no worse than `q` in (score, batch size) order; full ties are left to the iteration order. */
  predicate NoWorse(tokens: nat, hits: Hits, b: Batches, load: Load, p: Pod, q: Pod)
    requires p in hits && q in hits
  {
    var sp, sq := ScoreOf(tokens, hits, b, load, p), ScoreOf(tokens, hits, b, load, q);
    sp < sq || (sp == sq && BatchSize(b, p) <= BatchSize(b, q))
  }

  ghost predicate Minimal(tokens: nat, hits: Hits, b: Batches, load: Load, p: Pod, ps: set<Pod>)
    requires ps <= hits.Keys
  {
    p in ps && forall q :: q in ps ==> NoWorse(tokens, hits, b, load, p, q)
  }

  /**
   * In figures: with n and m the tokens that `p` and any other pod `q` would still have to prefill, the tokens
   * outstanding on `p` and n, times its batch with the request, come to no more than for `q`, and for as much only
   * if its batch is no larger.
   */
  ghost predicate Cheapest(tokens: nat, hits: Hits, b: Batches, load: Load, p: Pod) {
    p in hits && forall q, n, m :: q in hits && WholePart(n, tokens, hits[p]) && WholePart(m, tokens, hits[q]) ==>
      var bp, bq := if p in b then b[p] else 0, if q in b then b[q] else 0;
      var x, y := (Get(load, p) + n) * (bp + 1), (Get(load, q) + m) * (bq + 1);
      x < y || (x == y && bp <= bq)
  }

  lemma MinimalIsCheapest(tokens: nat, hits: Hits, b: Batches, load: Load, p: Pod)
    ensures Minimal(tokens, hits, b, load, p, hits.Keys) <==> Cheapest(tokens, hits, b, load, p)
  {
    if Cheapest(tokens, hits, b, load, p) {
      forall q | q in hits ensures NoWorse(tokens, hits, b, load, p, q) {
        assert WholePart(NewTokens(tokens, hits[p]), tokens, hits[p]);
        assert WholePart(NewTokens(tokens, hits[q]), tokens, hits[q]);
      }
    }
    if Minimal(tokens, hits, b, load, p, hits.Keys) {
      forall q, n, m | q in hits && WholePart(n, tokens, hits[p]) && WholePart(m, tokens, hits[q])
        ensures n == NewTokens(tokens, hits[p]) && m == NewTokens(tokens, hits[q]) && NoWorse(tokens, hits, b, load, p, q)
      {
      }
    }
  }

  lemma ScoreNonNegative(tokens: nat, hits: Hits, b: Batches, load: Load, p: Pod)
    requires p in hits && NonNegative(load)
    ensures ScoreOf(tokens, hits, b, load, p) >= 0
  {
  }

  class Book {
    var newPrefillTokens: Load
    var requestTokens: map<Request, nat>

    constructor ()
      ensures newPrefillTokens == map[] && requestTokens == map[]
    {
      newPrefillTokens, requestTokens := map[], map[];
    }

    /** One pass over the candidates in any order; -1 marks "none yet". */
    method Select(tokens: nat, hits: Hits, batches: Batches) returns (best: Pod)
      requires NonNegative(newPrefillTokens)
      ensures hits == map[] ==> best == ""
      ensures hits != map[] ==> Cheapest(tokens, hits, batches, newPrefillTokens, best)
    {
      var bestScore, bestBS: int := -1, -1;
      best := "";
      var todo := hits.Keys;
      while todo != {}
        invariant todo <= hits.Keys
        invariant todo == hits.Keys ==> bestScore < 0 && best == ""
        invariant todo != hits.Keys ==> Minimal(tokens, hits, batches, newPrefillTokens, best, hits.Keys - todo)
        invariant todo != hits.Keys ==> bestScore == ScoreOf(tokens, hits, batches, newPrefillTokens, best)
        invariant todo != hits.Keys ==> bestScore >= 0 && bestBS == BatchSize(batches, best)
      {
        var podIP :| podIP in todo;
        var accumulated := if podIP in newPrefillTokens then newPrefillTokens[podIP] else 0;
        var bs := (if podIP in batches then batches[podIP] else 0) + 1;
        var score := (accumulated + NewTokens(tokens, hits[podIP])) * bs;
        ScoreNonNegative(tokens, hits, batches, newPrefillTokens, podIP);
        if bestScore < 0 || score < bestScore || (score == bestScore && bs < bestBS) {
          bestScore, bestBS, best := score, bs, podIP;
        }
        assert hits.Keys - (todo - {podIP}) == (hits.Keys - todo) + {podIP};
        todo := todo - {podIP};
      }
      MinimalIsCheapest(tokens, hits, batches, newPrefillTokens, best);
    }

    /** The pod is charged what the request adds to it, between nothing and the whole prompt. */
    method Score(tokens: nat, hits: Hits, batches: Batches, request: Request) returns (selected: Pod, ok: bool)
      requires NonNegative(newPrefillTokens)
      modifies this
      ensures ok <==> selected != ""
      ensures ok ==> Cheapest(tokens, hits, batches, old(newPrefillTokens), selected)
      ensures ok ==> exists n: nat ::
        && WholePart(n, tokens, hits[selected]) && requestTokens == old(requestTokens)[request := n]
        && newPrefillTokens == old(newPrefillTokens)[selected := Get(old(newPrefillTokens), selected) + n]
      ensures !ok ==> hits == map[] || Cheapest(tokens, hits, batches, newPrefillTokens, "")
      ensures !ok ==> unchanged(this)
    {
      selected := Select(tokens, hits, batches);
      ok := selected != "";
      if ok {
        var n := NewTokens(tokens, hits[selected]);
        var was := if selected in newPrefillTokens then newPrefillTokens[selected] else 0;
        newPrefillTokens := newPrefillTokens[selected := was + n];
        requestTokens := requestTokens[request := n];
      }
    }

    /** The first critical section of a decrement or a rollback. */
    method Take(request: Request) returns (n: Option<nat>)
      modifies this`requestTokens
      ensures n == if request in old(requestTokens) then Some(old(requestTokens)[request]) else None
      ensures requestTokens == old(requestTokens) - {request}
    {
      n := if request in requestTokens then Some(requestTokens[request]) else None;
      requestTokens := requestTokens - {request};
    }

    /** The second critical section, with its clamp. */
    method Subtract(podIP: Pod, n: nat)
      modifies this`newPrefillTokens
      ensures newPrefillTokens == LessBy(old(newPrefillTokens), podIP, n)
    {
      var was := if podIP in newPrefillTokens then newPrefillTokens[podIP] else 0;
      newPrefillTokens := newPrefillTokens[podIP := was - n];
      if newPrefillTokens[podIP] < 0 {
        newPrefillTokens := newPrefillTokens[podIP := 0];
      }
    }

    method Decrement(request: Request, podIP: Pod) returns (n: nat)
      modifies this
      ensures request in old(requestTokens) ==>
        && n == old(requestTokens)[request]
        && requestTokens == old(requestTokens) - {request}
        && newPrefillTokens == LessBy(old(newPrefillTokens), podIP, n)
      ensures request !in old(requestTokens) ==> n == 0 && unchanged(this)
    {
      var taken := Take(request);
      if taken.None? {
        assert requestTokens == old(requestTokens);
        return 0;
      }
      Subtract(podIP, taken.value);
      n := taken.value;
    }

    /** A record of zero tokens is removed without touching the accumulator and reported as no rollback. */
    method Rollback(request: Request, podIP: Pod) returns (done: bool)
      modifies this
      ensures done <==> request in old(requestTokens) && old(requestTokens)[request] > 0
      ensures requestTokens == old(requestTokens) - {request}
      ensures done ==> newPrefillTokens == LessBy(old(newPrefillTokens), podIP, old(requestTokens)[request])
      ensures !done ==> newPrefillTokens == old(newPrefillTokens)
    {
      var taken := Take(request);
      if taken.None? || taken.value == 0 {
        return false;
      }
      Subtract(podIP, taken.value);
      done := true;
    }
  }

  /**
   * The selection rule is always entitled to its -1 sentinel: whatever calls are interleaved with it,
   * the accumulators a scorer reads are not negative.
   */
  lemma SentinelSound(s0: State, steps: seq<Step>, s: State)
    requires Initial(s0) && Run(s0, steps, s)
    ensures NonNegative(s.load)
  {
    forall p ensures Get(s.load, p) >= 0 {
      Accounting(s0, steps, s, p);
    }
  }

  /**
   * Once every call has finished and every record is gone, what a pod is still charged is exactly what
   * reused ids and premature clean-ups stranded there: nothing, if there were none.
   */
  lemma BooksClose(s0: State, steps: seq<Step>, s: State, p: Pod)
    requires Initial(s0) && Run(s0, steps, s) && Quiet(s) && s.records == map[]
    ensures Get(s.load, p) == Lost(s.lost, p)
    ensures Settled(steps) ==> Get(s.load, p) == 0
    ensures FreshIds(steps) && CleanedAfterTake(steps) ==> Get(s.load, p) == 0
  {
    Accounting(s0, steps, s, p);
    NothingLost(s0, steps, s);
    if FreshIds(steps) && CleanedAfterTake(steps) { FreshIdsSettle(s0, steps, s); }
    AllZero(CarriedShares(s.pcs, p));
    assert RecordShares(s.records, p) == map[];
  }
}
