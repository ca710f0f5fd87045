/**
 * The trace object itself, used by one goroutine at a time. Its methods have the effect of the machine's
 * steps taken without interruption; the machine in TraceWindows interleaves them.
 */
module RequestTraces {
  import opened TraceWindows

  const META_VERSION := "meta_v"
  const META_INTERVAL := "meta_interval_sec"
  const META_PRECISION := "meta_precision"
  const META_TOTAL := "meta_total_reqs"
  const META_PENDING := "meta_pending_reqs"

  predicate IsMeta(key: Key) { key in {META_VERSION, META_INTERVAL, META_PRECISION, META_TOTAL, META_PENDING} }

  /** What a finished call leaves of a trace: an attempt and, inside the read lock, its second update. */
  function Visited(tr: Trace, t: Thread, job: Job, o: Obj): Trace {
    var v := AttemptOn(tr, t, job, o);
    if v.pc.Inserted? then InsertDone(v.trace, t).trace
    else if v.pc.Bumping? then BumpDone(v.trace, t, job.op).trace
    else v.trace
  }

  class RequestTrace {
    var buckets: map<Key, int>
    var numKeys: int
    var numRequests: int
    var completedRequests: int
    var term: Term
    var hasRecycler: bool

    constructor ()
      ensures Shown(Pooled) == Trace(map[], 0, 0, 0, true, {}, {}, Pooled) && completedRequests == 0
    {
      buckets, numKeys, numRequests, completedRequests, term, hasRecycler := map[], 0, 0, 0, 0, true;
    }

    /** The object as a trace of the machine that nobody is inside. */
    ghost function Shown(home: Home): Trace
      reads this
    {
      Trace(buckets, numKeys, numRequests, term, hasRecycler, {}, {}, home)
    }

    method AddRequest(ghost home: Home, ghost t: Thread, ghost job: Job, ghost o: Obj) returns (traceTerm: Term, ok: bool)
      requires job.op.Add?
      modifies this`numRequests
      ensures Shown(home) == Visited(old(Shown(home)), t, job, o)
      ensures traceTerm == term && (ok <==> AttemptOn(old(Shown(home)), t, job, o).ends)
      ensures ok == hasRecycler && numRequests == old(numRequests) + if hasRecycler then 1 else 0
    {
      if !hasRecycler { return term, false; }
      numRequests := numRequests + 1;
      traceTerm, ok := term, true;
    }

    method DoneRequest(requestTerm: Term)
      modifies this`completedRequests
      ensures completedRequests == old(completedRequests) + if requestTerm == term then 1 else 0
    {
      if requestTerm == term { completedRequests := completedRequests + 1; }
    }

    /** LoadOrStore of a counter that starts at one; the first hit of a key counts the key instead. */
    method AddToBucket(key: Key, ghost home: Home, ghost t: Thread, ghost job: Job, ghost o: Obj)
      requires hasRecycler && job.op == Done(key)
      modifies this`buckets, this`numKeys
      ensures Shown(home) == Visited(old(Shown(home)), t, job, o)
      ensures buckets == old(buckets)[key := if key in old(buckets) then old(buckets)[key] + 1 else 1]
      ensures numKeys - old(numKeys) == |buckets| - |old(buckets)|
    {
      if key in buckets {
        buckets := buckets[key := buckets[key] + 1];
      } else {
        buckets := buckets[key := 1];
        numKeys := numKeys + 1;
      }
    }

    method DoneRequestTrace(key: Key, requestTerm: Term, ghost home: Home, ghost t: Thread, ghost job: Job, ghost o: Obj)
      returns (ok: bool)
      requires job.op == Done(key)
      modifies this`buckets, this`numKeys, this`completedRequests
      ensures Shown(home) == Visited(old(Shown(home)), t, job, o)
      ensures ok <==> old(hasRecycler)
      ensures buckets == if ok then old(buckets)[key := if key in old(buckets) then old(buckets)[key] + 1 else 1] else old(buckets)
      ensures completedRequests == old(completedRequests) + if ok && requestTerm == term then 1 else 0
    {
      if !hasRecycler { return false; }
      DoneRequest(requestTerm);
      AddToBucket(key, home, t, job, o);
      ok := true;
    }

    /** What is published: every bucket, and the figures of the window under keys of their own. */
    method ToMapLocked(pending: int, model: Model) returns (published: map<string, int>)
      requires forall k :: k in buckets ==> !IsMeta(k)
      ensures published.Keys == buckets.Keys + {"meta_v", "meta_interval_sec", "meta_precision", "meta_total_reqs", "meta_pending_reqs"}
      ensures forall k :: k in buckets ==> published[k] == buckets[k]
      ensures published["meta_v"] == 3 && published["meta_interval_sec"] == 10 && published["meta_precision"] == 10
      ensures published["meta_total_reqs"] == numRequests && published["meta_pending_reqs"] == pending
      ensures forall k :: !IsMeta(k) ==> (if k in published then published[k] else 0) == WindowOf(model, Shown(Pooled)).Value(Done(k))
      ensures published[META_TOTAL] == WindowOf(model, Shown(Pooled)).Value(Add)
    {
      published := buckets[META_VERSION := 3][META_INTERVAL := 10][META_PRECISION := 10]
                          [META_TOTAL := numRequests][META_PENDING := pending];
    }

    /** Calling a recycler that is gone would crash. */
    method RecycleLocked(ghost home: Home)
      requires hasRecycler
      modifies this`hasRecycler
      ensures Shown(Pooled) == Recycled(old(Shown(home))) && !hasRecycler
    {
      hasRecycler := false;
    }

    /** The generator's reset of an object it took from the pool. */
    method Reissue(newTerm: Term, ghost home: Home, ghost t: Thread, ghost o: Obj)
      modifies this
      ensures Shown(Private(t)) == Reissued(map[o := old(Shown(home))], t, o, newTerm)
      ensures numRequests == 0 && completedRequests == 0 && term == newTerm && hasRecycler
      ensures if old(numKeys) > 0 then buckets == map[] && numKeys == 0 else buckets == old(buckets) && numKeys == old(numKeys)
    {
      if numKeys > 0 { buckets, numKeys := map[], 0; }
      numRequests, completedRequests, term, hasRecycler := 0, 0, newTerm, true;
    }
  }
}
