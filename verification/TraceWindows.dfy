/**
 * The request-trace windows: callers count requests into the current window of their model while a
 * ticker swaps the window map out, resets a counter by compare-and-swap, publishes every old window
 * and puts its object back into a pool. Every atomic operation, map operation and write-locked section
 * is one step; a read-locked section that touches a bucket is two, since others may run inside it.
 */
module TraceWindows {

  type Model = string
  type Key = string
  type Thread = nat
  type Obj = nat
  type Term = int
  type Call = nat

  /** AddRequestCount, DoneRequestTrace (with its bucket key) and DoneRequestCount. */
  datatype Op = Add | Done(key: Key) | Touch

  datatype Job = Job(call: Call, model: Model, op: Op)

  /** History: where a trace object stands, and what became of a term. */
  datatype Home = Pooled | Private(t: Thread) | Live(model: Model) | Retired(model: Model)
  datatype Fate = OnObject(o: Obj) | Published(i: nat) | Discarded

  /**
   * `inserting` and `bumping` are the goroutines inside the read lock that owe a second update; `home`
   * is a history variable.
   */
  datatype Trace = Trace(
    buckets: map<Key, int>,
    numKeys: int,
    numRequests: int,
    term: Term,
    hasRecycler: bool,
    inserting: set<Thread>,
    bumping: set<Thread>,
    home: Home)
  {
    predicate Unlocked() { inserting == {} && bumping == {} }

    function Value(op: Op): int {
      match op
      case Add => numRequests
      case Done(k) => if k in buckets then buckets[k] else 0
      case Touch => 0
    }
  }

  type Heap = map<Obj, Trace>

  /** What ToMapLocked hands over for publication. */
  datatype Window = Window(model: Model, term: Term, requests: int, buckets: map<Key, int>) {
    function Value(op: Op): int {
      match op
      case Add => requests
      case Done(k) => if k in buckets then buckets[k] else 0
      case Touch => 0
    }
  }

  datatype Pc =
    | Idle
    | Fetching(job: Job)                     // at the head of the retry loop
    | Fresh(job: Job, mine: Obj)             // has a trace from the pool, has not offered it yet
    | Surplus(job: Job, mine: Obj, got: Obj) // another window was there; must recycle its own
    | Stored(job: Job, mine: Obj)            // its trace became the window; must count it
    | Holding(job: Job, obj: Obj)            // getRequestTrace has returned
    | Inserted(job: Job, obj: Obj)           // in the read lock, owes numKeys one
    | Bumping(job: Job, obj: Obj)            // in the read lock, owes an existing bucket one
  {
    predicate Holds(o: Obj) {
      match this
      case Idle => false
      case Fetching(_) => false
      case Fresh(_, mine) => o == mine
      case Surplus(_, mine, got) => o == mine || o == got
      case Stored(_, mine) => o == mine
      case Holding(_, obj) => o == obj
      case Inserted(_, obj) => o == obj
      case Bumping(_, obj) => o == obj
    }
  }

  type Pcs = map<Thread, Pc>

  datatype Publisher =
    | Waiting
    | Started                         // the skip test has seen a non-zero counter
    | Loaded(n: int)
    | Resetting(n: int, to: int)      // about to compare-and-swap n for `to`
    | Reloading(n: int)               // the compare-and-swap failed
    | Publishing

  datatype Hit = Hit(job: Job, term: Term)

  type Log = map<Call, Hit>
  type Fates = map<Term, Fate>
  type Slots = map<Model, Obj>

  /** `fate`, `counted`, `calls` and `returned` are history variables. */
  datatype State = State(
    heap: Heap,
    live: Slots,
    retired: Slots,
    counter: int,
    publisher: Publisher,
    pcs: Pcs,
    published: seq<Window>,
    fate: Fates,
    counted: Log,
    calls: set<Call>,
    returned: set<Call>)

  datatype Step =
    | Start(t: Thread, job: Job)
    | FromPool(t: Thread, o: Obj, term: Term)
    | LoadOrStore(t: Thread)
    | RecycleOwn(t: Thread)
    | Increment(t: Thread)
    | Attempt(t: Thread)
    | FinishInsert(t: Thread)
    | FinishBump(t: Thread)
    | Tick
    | LoadCounter
    | SwapMap
    | CompareAndSwap
    | Reload
    | Publish(model: Model)
    | Rest
  {
    predicate ByCaller() { Start? || FromPool? || LoadOrStore? || RecycleOwn? || Increment? || Attempt? || FinishInsert? || FinishBump? }
  }

  /** A caller that has an Add or a Done to count on the object, now or later. */
  predicate CountsOn(pc: Pc, o: Obj) { pc.Holds(o) && !pc.job.op.Touch? }

  /** The pool hands out an object nobody will count on. Go's pool does not promise this; see `ReissueExact`. */
  predicate Issuable(s: State, o: Obj) {
    o !in s.heap || (s.heap[o].home.Pooled? && forall t :: t in s.pcs ==> !CountsOn(s.pcs[t], o))
  }

  predicate Enabled(s: State, step: Step) {
    if step.ByCaller() then
      step.t in s.pcs &&
      var pc := s.pcs[step.t];
      match step
      case Start(_, job) => pc.Idle? && job.call !in s.calls
      case FromPool(_, o, term) => pc.Fetching? && Issuable(s, o) && term !in s.fate
      case LoadOrStore(_) => pc.Fresh? && pc.mine in s.heap
      case RecycleOwn(_) => pc.Surplus? && pc.mine in s.heap && s.heap[pc.mine].Unlocked()
      case Increment(_) => pc.Stored?
      case Attempt(_) => pc.Holding? && pc.obj in s.heap
      case FinishInsert(_) => pc.Inserted? && pc.obj in s.heap
      case FinishBump(_) => pc.Bumping? && pc.obj in s.heap && pc.job.op.Done?
    else
      match step
      case Tick => s.publisher.Waiting? && s.counter != 0
      case LoadCounter => s.publisher.Started?
      case SwapMap => s.publisher.Loaded?
      case CompareAndSwap => s.publisher.Resetting?
      case Reload => s.publisher.Reloading?
      case Publish(m) =>
        && s.publisher.Publishing? && m in s.retired
        && s.retired[m] in s.heap && s.heap[s.retired[m]].Unlocked()
      case Rest => s.publisher.Publishing? && s.retired == map[]
  }

  /** newRequestTraceGen: the buckets are dropped only if `numKeys` says there are any. */
  function Reissued(heap: Heap, t: Thread, o: Obj, term: Term): Trace {
    if o in heap then
      var was := heap[o];
      was.(buckets := if was.numKeys > 0 then map[] else was.buckets,
           numKeys := if was.numKeys > 0 then 0 else was.numKeys,
           numRequests := 0, term := term, hasRecycler := true, home := Private(t))
    else
      Trace(map[], 0, 0, term, true, {}, {}, Private(t))
  }

  function Recycled(tr: Trace): Trace { tr.(hasRecycler := false, home := Pooled) }

  /** What a visit to a held trace leaves behind: the trace, the caller's next state, a count, a return. */
  datatype Visit = Visit(trace: Trace, pc: Pc, counts: bool, ends: bool)

  /** AddRequest and DoneRequestTrace; a recycled trace sends the caller back to fetch another. */
  function AttemptOn(tr: Trace, t: Thread, job: Job, o: Obj): Visit {
    if job.op.Touch? then Visit(tr, Idle, false, false)
    else if !tr.hasRecycler then Visit(tr, Fetching(job), false, false)
    else if job.op.Add? then Visit(tr.(numRequests := tr.numRequests + 1), Idle, true, true)
    else if job.op.key in tr.buckets then Visit(tr.(bumping := tr.bumping + {t}), Bumping(job, o), false, false)
    else Visit(tr.(buckets := tr.buckets[job.op.key := 1], inserting := tr.inserting + {t}), Inserted(job, o), true, false)
  }

  function InsertDone(tr: Trace, t: Thread): Visit {
    Visit(tr.(numKeys := tr.numKeys + 1, inserting := tr.inserting - {t}), Idle, false, true)
  }

  function BumpDone(tr: Trace, t: Thread, op: Op): Visit
    requires op.Done?
  {
    Visit(tr.(buckets := tr.buckets[op.key := tr.Value(op) + 1], bumping := tr.bumping - {t}), Idle, true, true)
  }

  function LogAfter(counted: Log, job: Job, tr: Trace, v: Visit): Log {
    if v.counts then counted[job.call := Hit(job, tr.term)] else counted
  }

  function AfterVisit(s: State, t: Thread, job: Job, o: Obj, v: Visit): State
    requires o in s.heap
  {
    s.(heap := s.heap[o := v.trace],
       counted := LogAfter(s.counted, job, s.heap[o], v),
       returned := if v.ends then s.returned + {job.call} else s.returned,
       pcs := s.pcs[t := v.pc])
  }

  function FetchFresh(s: State, t: Thread, job: Job, o: Obj, term: Term): State {
    s.(heap := s.heap[o := Reissued(s.heap, t, o, term)], fate := s.fate[term := OnObject(o)],
       pcs := s.pcs[t := Fresh(job, o)])
  }

  function Offer(s: State, t: Thread, job: Job, mine: Obj): State
    requires mine in s.heap
  {
    if job.model in s.live then s.(pcs := s.pcs[t := Surplus(job, mine, s.live[job.model])])
    else s.(live := s.live[job.model := mine], heap := s.heap[mine := s.heap[mine].(home := Live(job.model))],
            pcs := s.pcs[t := Stored(job, mine)])
  }

  function DropOwn(s: State, t: Thread, job: Job, mine: Obj, got: Obj): State
    requires mine in s.heap
  {
    s.(heap := s.heap[mine := Recycled(s.heap[mine])], fate := s.fate[s.heap[mine].term := Discarded],
       pcs := s.pcs[t := Holding(job, got)])
  }

  function ApplyCaller(s: State, step: Step): State
    requires step.ByCaller() && Enabled(s, step)
  {
    var t := step.t;
    var pc := s.pcs[t];
    match step
    case Start(_, job) => s.(pcs := s.pcs[t := Fetching(job)], calls := s.calls + {job.call})
    case FromPool(_, o, term) => FetchFresh(s, t, pc.job, o, term)
    case LoadOrStore(_) => Offer(s, t, pc.job, pc.mine)
    case RecycleOwn(_) => DropOwn(s, t, pc.job, pc.mine, pc.got)
    case Increment(_) => s.(counter := s.counter + 1, pcs := s.pcs[t := Holding(pc.job, pc.mine)])
    case Attempt(_) => AfterVisit(s, t, pc.job, pc.obj, AttemptOn(s.heap[pc.obj], t, pc.job, pc.obj))
    case FinishInsert(_) => AfterVisit(s, t, pc.job, pc.obj, InsertDone(s.heap[pc.obj], t))
    case FinishBump(_) => AfterVisit(s, t, pc.job, pc.obj, BumpDone(s.heap[pc.obj], t, pc.job.op))
  }

  function Retire(tr: Trace): Trace { if tr.home.Live? then tr.(home := Retired(tr.home.model)) else tr }

  function RetireAll(heap: Heap): Heap { map o | o in heap :: Retire(heap[o]) }

  function WindowOf(m: Model, tr: Trace): Window { Window(m, tr.term, tr.numRequests, tr.buckets) }

  function Emit(s: State, m: Model, o: Obj): State
    requires o in s.heap
  {
    s.(published := s.published + [WindowOf(m, s.heap[o])], retired := s.retired - {m},
       heap := s.heap[o := Recycled(s.heap[o])], fate := s.fate[s.heap[o].term := Published(|s.published|)])
  }

  function ApplyPublisher(s: State, step: Step): State
    requires !step.ByCaller() && Enabled(s, step)
  {
    match step
    case Tick => s.(publisher := Started)
    case LoadCounter => s.(publisher := Loaded(s.counter))
    case SwapMap =>
      s.(retired := s.live, live := map[], heap := RetireAll(s.heap), publisher := Resetting(s.publisher.n, 0))
    case CompareAndSwap =>
      if s.counter == s.publisher.n then s.(counter := s.publisher.to, publisher := Publishing)
      else s.(publisher := Reloading(s.publisher.n))
    case Reload => s.(publisher := Resetting(s.counter, s.counter - s.publisher.n))
    case Publish(m) => Emit(s, m, s.retired[m])
    case Rest => s.(publisher := Waiting)
  }

  function Apply(s: State, step: Step): State
    requires Enabled(s, step)
  {
    if step.ByCaller() then ApplyCaller(s, step) else ApplyPublisher(s, step)
  }

  predicate Initial(s: State) {
    && s.heap == map[] && s.live == map[] && s.retired == map[] && s.fate == map[]
    && s.counter == 0 && s.publisher == Waiting && s.published == []
    && s.counted == map[] && s.calls == {} && s.returned == {}
    && forall t :: t in s.pcs ==> s.pcs[t].Idle?
  }

  ghost predicate Run(s: State, steps: seq<Step>, s': State)
    decreases |steps|
  {
    if steps == [] then s' == s
    else Enabled(s, steps[0]) && Run(Apply(s, steps[0]), steps[1..], s')
  }

  // --- the skip test ----------------------------------------------------------------------------

  /** Whoever stored `o` as a window has not counted it yet. */
  ghost predicate Unannounced(pcs: Pcs, o: Obj) {
    exists t :: t in pcs && pcs[t].Stored? && pcs[t].mine == o
  }

  ghost predicate AllUnannounced(live: Slots, pcs: Pcs) {
    forall m :: m in live ==> Unannounced(pcs, live[m])
  }

  ghost predicate CounterInv(counter: int, publisher: Publisher, live: Slots, pcs: Pcs) {
    && counter >= 0
    && match publisher
       case Waiting => counter == 0 ==> AllUnannounced(live, pcs)
       case Started => counter > 0
       case Loaded(n) => 0 < n <= counter
       case Resetting(n, to) => 0 < n <= counter && to >= 0 && (to == 0 && counter == n ==> AllUnannounced(live, pcs))
       case Reloading(n) => 0 < n < counter
       case Publishing => counter == 0 ==> AllUnannounced(live, pcs)
  }

  ghost predicate CounterOk(s: State) { CounterInv(s.counter, s.publisher, s.live, s.pcs) }

  /** A caller that has nothing to announce moves, possibly storing a new window it then owes. */
  lemma CallerMoves(counter: int, publisher: Publisher, live: Slots, pcs: Pcs,
                    t: Thread, pc: Pc, live': Slots)
    requires CounterInv(counter, publisher, live, pcs) && t in pcs && !pcs[t].Stored?
    requires forall m :: m in live' ==> (m in live && live'[m] == live[m]) || (pc.Stored? && live'[m] == pc.mine)
    ensures CounterInv(counter, publisher, live', pcs[t := pc])
  {
    var pcs' := pcs[t := pc];
    forall m | m in live' && (m in live ==> Unannounced(pcs, live[m])) ensures Unannounced(pcs', live'[m]) {
      if m in live && live'[m] == live[m] {
        var u :| u in pcs && pcs[u].Stored? && pcs[u].mine == live[m];
        assert pcs'[u] == pcs[u];
      } else {
        assert pcs'[t].Stored?;
      }
    }
  }

  lemma CounterKeptByCaller(s: State, step: Step)
    requires CounterOk(s) && step.ByCaller() && Enabled(s, step)
    ensures CounterOk(ApplyCaller(s, step))
  {
    var t := step.t;
    var pc := s.pcs[t];
    match step
    case Start(_, job) => CallerMoves(s.counter, s.publisher, s.live, s.pcs, t, Fetching(job), s.live);
    case FromPool(_, o, _) => CallerMoves(s.counter, s.publisher, s.live, s.pcs, t, Fresh(pc.job, o), s.live);
    case LoadOrStore(_) =>
      var m := pc.job.model;
      if m in s.live {
        CallerMoves(s.counter, s.publisher, s.live, s.pcs, t, Surplus(pc.job, pc.mine, s.live[m]), s.live);
      } else {
        CallerMoves(s.counter, s.publisher, s.live, s.pcs, t, Stored(pc.job, pc.mine), s.live[m := pc.mine]);
      }
    case RecycleOwn(_) => CallerMoves(s.counter, s.publisher, s.live, s.pcs, t, Holding(pc.job, pc.got), s.live);
    case Increment(_) =>
    case Attempt(_) =>
      CallerMoves(s.counter, s.publisher, s.live, s.pcs, t, AttemptOn(s.heap[pc.obj], t, pc.job, pc.obj).pc, s.live);
    case FinishInsert(_) => CallerMoves(s.counter, s.publisher, s.live, s.pcs, t, Idle, s.live);
    case FinishBump(_) => CallerMoves(s.counter, s.publisher, s.live, s.pcs, t, Idle, s.live);
  }

  lemma CounterKeptByPublisher(s: State, step: Step)
    requires CounterOk(s) && !step.ByCaller() && Enabled(s, step)
    ensures CounterOk(ApplyPublisher(s, step))
  {
    match step
    case Tick =>
    case LoadCounter =>
    case SwapMap =>
    case CompareAndSwap =>
    case Reload =>
    case Publish(_) =>
    case Rest =>
  }

  /**
   * No window is lost by the skip test: in every reachable state, however often the compare-and-swap
   * failed, a zero counter with no increment outstanding means there is no window to publish.
   */
  lemma {:induction false} SkipTestSound(s0: State, steps: seq<Step>, s: State)
    requires CounterOk(s0) && Run(s0, steps, s)
    ensures CounterOk(s)
    ensures s.counter == 0 && (forall t :: t in s.pcs ==> !s.pcs[t].Stored?) ==> s.live == map[]
    decreases |steps|
  {
    if steps != [] {
      if steps[0].ByCaller() {
        CounterKeptByCaller(s0, steps[0]);
      } else {
        CounterKeptByPublisher(s0, steps[0]);
      }
      SkipTestSound(Apply(s0, steps[0]), steps[1..], s);
    } else if s.counter == 0 && s.live != map[] {
      var m :| m in s.live;
      assert Unannounced(s.pcs, s.live[m]);
    }
  }

  // --- what the reset leaves on the counter -------------------------------------------------------

  function Counted(step: Step): nat { if step.Increment? then 1 else 0 }

  function Retried(step: Step): nat { if step.Reload? then 1 else 0 }

  function Increments(steps: seq<Step>): nat {
    if steps == [] then 0 else Counted(steps[0]) + Increments(steps[1..])
  }

  function Reloads(steps: seq<Step>): nat {
    if steps == [] then 0 else Retried(steps[0]) + Reloads(steps[1..])
  }

  /** `k` windows were counted and the reset was retried `r` times since the counter was loaded. */
  predicate Round(counter: int, publisher: Publisher, k: nat, r: nat) {
    match publisher
    case Loaded(n) => counter == n + k && r == 0
    case Resetting(n, to) =>
      && n <= counter && 0 <= to && to + (counter - n) <= k
      && (r == 0 ==> to == 0) && (r <= 1 ==> to + (counter - n) == k)
    case Reloading(n) => n <= counter && counter - n <= k && (r == 0 ==> counter - n == k)
    case Publishing => counter <= k && (r <= 1 ==> counter == k)
    case Waiting => counter <= k && (r <= 1 ==> counter == k)
    case Started => false
  }

  lemma CallerRound(s: State, step: Step)
    requires step.ByCaller() && Enabled(s, step)
    ensures ApplyCaller(s, step).publisher == s.publisher && ApplyCaller(s, step).counter == s.counter + Counted(step)
  {
  }

  lemma PublisherRound(s: State, step: Step, k: nat, r: nat)
    requires Round(s.counter, s.publisher, k, r) && !step.ByCaller() && Enabled(s, step) && !step.Tick?
    ensures var s' := ApplyPublisher(s, step); Round(s'.counter, s'.publisher, k, r + Retried(step))
  {
    match step
    case LoadCounter =>
    case SwapMap =>
    case CompareAndSwap =>
    case Reload =>
    case Publish(_) =>
    case Rest =>
  }

  lemma {:induction false} RoundKept(s: State, steps: seq<Step>, s': State, k: nat, r: nat)
    requires Run(s, steps, s') && Round(s.counter, s.publisher, k, r) && (forall i :: 0 <= i < |steps| ==> !steps[i].Tick?)
    ensures Round(s'.counter, s'.publisher, k + Increments(steps), r + Reloads(steps))
    decreases |steps|
  {
    if steps != [] {
      var step := steps[0];
      var mid := Apply(s, step);
      if step.ByCaller() { CallerRound(s, step); } else { PublisherRound(s, step, k, r); }
      RoundKept(mid, steps[1..], s', k + Counted(step), r + Retried(step));
      assert Increments(steps) == Counted(step) + Increments(steps[1..]);
      assert Reloads(steps) == Retried(step) + Reloads(steps[1..]);
    }
  }

  /**
   * What a round leaves on the counter: from the load on, at most the windows counted since, and exactly those
   * unless the compare-and-swap failed twice (a second failure forgets what the first one had found).
   */
  lemma ResetLeaves(s: State, steps: seq<Step>, s': State)
    requires Run(s, steps, s') && s.publisher == Loaded(s.counter) && (forall i :: 0 <= i < |steps| ==> !steps[i].Tick?)
    requires s'.publisher.Publishing? || s'.publisher.Waiting?
    ensures s'.counter <= Increments(steps)
    ensures Reloads(steps) <= 1 ==> s'.counter == Increments(steps)
  {
    RoundKept(s, steps, s', 0, 0);
  }

  // --- what every step keeps --------------------------------------------------------------------

  predicate InUse(h: Home, m: Model) { h == Live(m) || h == Retired(m) }

  /**
   * `numKeys` lags the bucket count by exactly the goroutines inside the read lock that owe it one. A pooled
   * trace has no recycler, and neither it nor one just taken from the pool has anybody in its lock.
   */
  predicate TraceOk(tr: Trace) {
    && tr.numKeys + |tr.inserting| == |tr.buckets|
    && (tr.hasRecycler <==> !tr.home.Pooled?)
    && (tr.home.Pooled? || tr.home.Private? ==> tr.Unlocked())
  }

  ghost predicate Sound(heap: Heap) { forall o :: o in heap ==> TraceOk(heap[o]) }

  /** The two window maps and the objects agree on who stands where. */
  ghost predicate Mapped(heap: Heap, live: Slots, retired: Slots) {
    && (forall m :: m in live ==> live[m] in heap && heap[live[m]].home == Live(m))
    && (forall m :: m in retired ==> retired[m] in heap && heap[retired[m]].home == Retired(m))
    && (forall o :: o in heap && heap[o].home.Live? ==> heap[o].home.model in live && live[heap[o].home.model] == o)
    && (forall o :: o in heap && heap[o].home.Retired? ==>
          heap[o].home.model in retired && retired[heap[o].home.model] == o)
  }

  /** A window of the caller's model, or one recycled since the caller got it; any at all if nothing is to be counted. */
  predicate Usable(heap: Heap, o: Obj, job: Job) {
    o in heap && (InUse(heap[o].home, job.model) || heap[o].home.Pooled? || job.op.Touch?)
  }

  predicate MayHold(heap: Heap, t: Thread, pc: Pc) {
    match pc
    case Idle => true
    case Fetching(_) => true
    case Fresh(_, mine) => mine in heap && heap[mine].home == Private(t)
    case Surplus(job, mine, got) => mine in heap && heap[mine].home == Private(t) && Usable(heap, got, job)
    case Stored(job, mine) => Usable(heap, mine, job)
    case Holding(job, obj) => Usable(heap, obj, job)
    case Inserted(job, obj) =>
      obj in heap && InUse(heap[obj].home, job.model) && job.op.Done? && t in heap[obj].inserting
    case Bumping(job, obj) =>
      && obj in heap && InUse(heap[obj].home, job.model) && job.op.Done?
      && t in heap[obj].bumping && job.op.key in heap[obj].buckets
  }

  predicate Owes(pcs: Pcs, t: Thread, o: Obj) { t in pcs && pcs[t].Inserted? && pcs[t].obj == o }

  ghost predicate Held(heap: Heap, pcs: Pcs) {
    && (forall t :: t in pcs ==> MayHold(heap, t, pcs[t]))
    && (forall o, t :: o in heap && t in heap[o].inserting ==> Owes(pcs, t, o))
  }

  /** Terms identify windows. */
  ghost predicate Fated(heap: Heap, fate: Fates, published: seq<Window>) {
    && (forall o :: o in heap && !heap[o].home.Pooled? ==> heap[o].term in fate && fate[heap[o].term] == OnObject(o))
    && (forall i :: 0 <= i < |published| ==> published[i].term in fate && fate[published[i].term] == Published(i))
    && (forall x :: x in fate && fate[x].OnObject? ==>
          fate[x].o in heap && heap[fate[x].o].term == x && !heap[fate[x].o].home.Pooled?)
  }

  /** The calls counted under a term, for one operation. */
  function CallsIn(counted: Log, term: Term, op: Op): set<Call> {
    set c | c in counted && counted[c].term == term && counted[c].job.op == op
  }

  /** A window shows, bucket by bucket, the number of calls counted in it. */
  ghost predicate TraceExact(counted: Log, tr: Trace) {
    forall op :: op != Touch ==> tr.Value(op) == |CallsIn(counted, tr.term, op)|
  }

  ghost predicate WindowExact(counted: Log, w: Window) {
    forall op :: op != Touch ==> w.Value(op) == |CallsIn(counted, w.term, op)|
  }

  ghost predicate Exact(heap: Heap, counted: Log, published: seq<Window>) {
    && (forall o :: o in heap && !heap[o].home.Pooled? ==> TraceExact(counted, heap[o]))
    && (forall i :: 0 <= i < |published| ==> WindowExact(counted, published[i]))
  }

  /** A call in progress is counted only while it owes `numKeys`; no two callers share a call. */
  ghost predicate Called(pcs: Pcs, calls: set<Call>, counted: Log) {
    && (forall t :: t in pcs && !pcs[t].Idle? ==>
          pcs[t].job.call in calls && (pcs[t].Inserted? <==> pcs[t].job.call in counted))
    && (forall t, u :: t in pcs && u in pcs && t != u && !pcs[t].Idle? && !pcs[u].Idle? ==>
          pcs[t].job.call != pcs[u].job.call)
    && counted.Keys <= calls
  }

  /** The window a call was counted in is one of its own model, still open or published. */
  ghost predicate InOwnModel(heap: Heap, fate: Fates, published: seq<Window>, hit: Hit) {
    hit.term in fate && hit.job.op != Touch &&
    match fate[hit.term]
    case OnObject(o) => o in heap && InUse(heap[o].home, hit.job.model)
    case Published(i) => i < |published| && published[i].model == hit.job.model
    case Discarded => false
  }

  ghost predicate Owned(heap: Heap, fate: Fates, published: seq<Window>, counted: Log) {
    forall c :: c in counted ==> InOwnModel(heap, fate, published, counted[c])
  }

  ghost predicate Inv(s: State) {
    && Sound(s.heap) && Mapped(s.heap, s.live, s.retired) && Held(s.heap, s.pcs)
    && Fated(s.heap, s.fate, s.published) && Exact(s.heap, s.counted, s.published)
    && Called(s.pcs, s.calls, s.counted) && Owned(s.heap, s.fate, s.published, s.counted)
    && s.returned <= s.counted.Keys
    && (s.publisher.Waiting? || s.publisher.Started? || s.publisher.Loaded? ==> s.retired == map[])
  }

  // One caller moves.

  lemma HeldMove(heap: Heap, pcs: Pcs, t: Thread, pc: Pc)
    requires Held(heap, pcs) && t in pcs && !pcs[t].Inserted? && MayHold(heap, t, pc)
    ensures Held(heap, pcs[t := pc])
  {
  }

  lemma CalledMove(pcs: Pcs, calls: set<Call>, counted: Log, t: Thread, pc: Pc)
    requires Called(pcs, calls, counted) && t in pcs
    requires pc.Idle? || (!pcs[t].Idle? && pc.job == pcs[t].job && (pc.Inserted? <==> pcs[t].Inserted?))
    ensures Called(pcs[t := pc], calls, counted)
  {
  }

  // One trace changes.

  lemma SoundUpdate(heap: Heap, o: Obj, tr: Trace)
    requires Sound(heap) && TraceOk(tr)
    ensures Sound(heap[o := tr])
  {
  }

  lemma ExactUpdate(heap: Heap, counted: Log, published: seq<Window>, o: Obj, tr: Trace)
    requires Exact(heap, counted, published) && (tr.home.Pooled? || TraceExact(counted, tr))
    ensures Exact(heap[o := tr], counted, published)
  {
  }

  predicate OffMap(h: Home) { h.Private? || h.Pooled? }

  lemma OffMapMapped(heap: Heap, live: Slots, retired: Slots, o: Obj, tr: Trace)
    requires Mapped(heap, live, retired) && (o in heap ==> OffMap(heap[o].home)) && OffMap(tr.home)
    ensures Mapped(heap[o := tr], live, retired)
  {
  }

  // A trace comes out of the pool.

  /** It comes out empty because `numKeys` told the truth when it went in. */
  lemma ReissuedEmpty(heap: Heap, t: Thread, o: Obj, term: Term)
    requires Sound(heap) && (o in heap ==> heap[o].home.Pooled?)
    ensures Reissued(heap, t, o, term) == Trace(map[], 0, 0, term, true, {}, {}, Private(t))
  {
  }

  lemma FreshHeld(heap: Heap, pcs: Pcs, t: Thread, job: Job, o: Obj, tr: Trace)
    requires Held(heap, pcs) && tr.home == Private(t) && tr.inserting == {} && t in pcs && !pcs[t].Inserted?
    requires o in heap ==> heap[o].home.Pooled? && forall u :: u in pcs ==> !CountsOn(pcs[u], o)
    ensures Held(heap[o := tr], pcs[t := Fresh(job, o)])
  {
    forall u | u in pcs && u != t ensures MayHold(heap[o := tr], u, pcs[u]) {
      assert MayHold(heap, u, pcs[u]);
    }
  }

  lemma FreshTerm(heap: Heap, fate: Fates, published: seq<Window>, counted: Log, o: Obj, tr: Trace)
    requires Fated(heap, fate, published) && Owned(heap, fate, published, counted)
    requires (o in heap ==> heap[o].home.Pooled?) && tr.term !in fate && tr.home.Private?
    ensures Fated(heap[o := tr], fate[tr.term := OnObject(o)], published)
    ensures Owned(heap[o := tr], fate[tr.term := OnObject(o)], published, counted)
    ensures forall op :: CallsIn(counted, tr.term, op) == {}
  {
    forall c | c in counted
      ensures InOwnModel(heap[o := tr], fate[tr.term := OnObject(o)], published, counted[c]) && counted[c].term != tr.term
    {
      assert InOwnModel(heap, fate, published, counted[c]);
    }
  }

  lemma FromPoolKeeps(s: State, t: Thread, job: Job, o: Obj, term: Term)
    requires Inv(s) && t in s.pcs && s.pcs[t] == Fetching(job) && Issuable(s, o) && term !in s.fate
    ensures Inv(FetchFresh(s, t, job, o, term))
  {
    var tr := Trace(map[], 0, 0, term, true, {}, {}, Private(t));
    ReissuedEmpty(s.heap, t, o, term);
    FreshHeld(s.heap, s.pcs, t, job, o, tr);
    FreshTerm(s.heap, s.fate, s.published, s.counted, o, tr);
    CalledMove(s.pcs, s.calls, s.counted, t, Fresh(job, o));
    assert TraceExact(s.counted, tr);
    SoundUpdate(s.heap, o, tr);
    ExactUpdate(s.heap, s.counted, s.published, o, tr);
    OffMapMapped(s.heap, s.live, s.retired, o, tr);
  }

  // A private trace becomes the window, or goes back to the pool.

  /** A trace changes its place only; whoever else held it still may. */
  predicate Rehomed(tr: Trace, tr': Trace) {
    && tr'.buckets == tr.buckets && tr'.numKeys == tr.numKeys && tr'.numRequests == tr.numRequests
    && tr'.term == tr.term && tr'.inserting == tr.inserting && tr'.bumping == tr.bumping
  }

  lemma RehomedExact(counted: Log, tr: Trace, tr': Trace)
    requires TraceExact(counted, tr) && Rehomed(tr, tr')
    ensures TraceExact(counted, tr')
  {
    forall op | op != Touch ensures tr'.Value(op) == |CallsIn(counted, tr'.term, op)| {
      assert tr'.Value(op) == tr.Value(op);
    }
  }

  lemma PrivateMoves(heap: Heap, pcs: Pcs, t: Thread, mine: Obj, tr: Trace, pc: Pc)
    requires Held(heap, pcs) && t in pcs && !pcs[t].Inserted? && mine in heap && heap[mine].home == Private(t)
    requires Rehomed(heap[mine], tr) && MayHold(heap[mine := tr], t, pc)
    ensures Held(heap[mine := tr], pcs[t := pc])
  {
    forall u | u in pcs && u != t ensures MayHold(heap[mine := tr], u, pcs[u]) {
      assert MayHold(heap, u, pcs[u]);
    }
  }

  lemma StoreMapped(heap: Heap, live: Slots, retired: Slots, m: Model, mine: Obj, tr: Trace)
    requires Mapped(heap, live, retired) && mine in heap && heap[mine].home.Private? && m !in live && tr.home == Live(m)
    ensures Mapped(heap[mine := tr], live[m := mine], retired)
  {
  }

  lemma StoreFated(heap: Heap, fate: Fates, published: seq<Window>, counted: Log, mine: Obj, tr: Trace)
    requires Fated(heap, fate, published) && Owned(heap, fate, published, counted)
    requires mine in heap && heap[mine].home.Private? && Rehomed(heap[mine], tr) && tr.home.Live?
    ensures Fated(heap[mine := tr], fate, published) && Owned(heap[mine := tr], fate, published, counted)
  {
    forall c | c in counted ensures InOwnModel(heap[mine := tr], fate, published, counted[c]) {
      assert InOwnModel(heap, fate, published, counted[c]);
    }
  }

  lemma DropFated(heap: Heap, fate: Fates, published: seq<Window>, counted: Log, mine: Obj, tr: Trace)
    requires Fated(heap, fate, published) && Owned(heap, fate, published, counted)
    requires mine in heap && heap[mine].home.Private? && Rehomed(heap[mine], tr) && tr.home.Pooled?
    ensures Fated(heap[mine := tr], fate[tr.term := Discarded], published)
    ensures Owned(heap[mine := tr], fate[tr.term := Discarded], published, counted)
  {
    forall c | c in counted ensures InOwnModel(heap[mine := tr], fate[tr.term := Discarded], published, counted[c]) {
      assert InOwnModel(heap, fate, published, counted[c]);
    }
  }

  lemma LoadOrStoreKeeps(s: State, t: Thread, job: Job, mine: Obj)
    requires Inv(s) && t in s.pcs && s.pcs[t] == Fresh(job, mine)
    ensures mine in s.heap && Inv(Offer(s, t, job, mine))
  {
    assert MayHold(s.heap, t, s.pcs[t]);
    var m := job.model;
    if m in s.live {
      HeldMove(s.heap, s.pcs, t, Surplus(job, mine, s.live[m]));
      CalledMove(s.pcs, s.calls, s.counted, t, Surplus(job, mine, s.live[m]));
    } else {
      var tr := s.heap[mine].(home := Live(m));
      PrivateMoves(s.heap, s.pcs, t, mine, tr, Stored(job, mine));
      CalledMove(s.pcs, s.calls, s.counted, t, Stored(job, mine));
      StoreMapped(s.heap, s.live, s.retired, m, mine, tr);
      StoreFated(s.heap, s.fate, s.published, s.counted, mine, tr);
      RehomedExact(s.counted, s.heap[mine], tr);
      SoundUpdate(s.heap, mine, tr);
      ExactUpdate(s.heap, s.counted, s.published, mine, tr);
    }
  }

  lemma RecycleOwnKeeps(s: State, t: Thread, job: Job, mine: Obj, got: Obj)
    requires Inv(s) && t in s.pcs && s.pcs[t] == Surplus(job, mine, got) && mine in s.heap && s.heap[mine].Unlocked()
    ensures Inv(DropOwn(s, t, job, mine, got))
  {
    var tr := Recycled(s.heap[mine]);
    assert MayHold(s.heap, t, s.pcs[t]);
    PrivateMoves(s.heap, s.pcs, t, mine, tr, Holding(job, got));
    CalledMove(s.pcs, s.calls, s.counted, t, Holding(job, got));
    OffMapMapped(s.heap, s.live, s.retired, mine, tr);
    SoundUpdate(s.heap, mine, tr);
    ExactUpdate(s.heap, s.counted, s.published, mine, tr);
    DropFated(s.heap, s.fate, s.published, s.counted, mine, tr);
  }

  // A caller visits a trace it holds.

  /** The trace stays where it is and keeps its term, its buckets and everyone else in its lock. */
  predicate Grown(tr: Trace, tr': Trace, t: Thread) {
    && tr'.home == tr.home && tr'.term == tr.term && tr'.hasRecycler == tr.hasRecycler
    && tr.buckets.Keys <= tr'.buckets.Keys
    && tr.inserting - {t} <= tr'.inserting && tr.bumping - {t} <= tr'.bumping
  }

  /** The visit adds one to the figure it counts under and nothing to any other. */
  ghost predicate CountsRight(tr: Trace, job: Job, v: Visit) {
    forall op :: op != Touch ==> v.trace.Value(op) == tr.Value(op) + if v.counts && op == job.op then 1 else 0
  }

  lemma VisitHeld(heap: Heap, pcs: Pcs, t: Thread, o: Obj, tr: Trace, pc: Pc)
    requires Held(heap, pcs) && t in pcs && o in heap && Grown(heap[o], tr, t) && MayHold(heap[o := tr], t, pc)
    requires pcs[t].Inserted? ==> pcs[t].obj == o
    requires tr.inserting <= heap[o].inserting + {t} && (t in tr.inserting ==> pc.Inserted? && pc.obj == o)
    ensures Held(heap[o := tr], pcs[t := pc])
  {
    forall u | u in pcs && u != t ensures MayHold(heap[o := tr], u, pcs[u]) {
      assert MayHold(heap, u, pcs[u]);
    }
  }

  lemma SamePlace(heap: Heap, live: Slots, retired: Slots, fate: Fates, published: seq<Window>, o: Obj, tr: Trace)
    requires Mapped(heap, live, retired) && Fated(heap, fate, published)
    requires o in heap && tr.home == heap[o].home && tr.term == heap[o].term
    ensures Mapped(heap[o := tr], live, retired) && Fated(heap[o := tr], fate, published)
  {
  }

  lemma SamePlaceOwned(heap: Heap, fate: Fates, published: seq<Window>, counted: Log, o: Obj, tr: Trace)
    requires Owned(heap, fate, published, counted) && o in heap && tr.home == heap[o].home
    ensures Owned(heap[o := tr], fate, published, counted)
  {
    forall c | c in counted ensures InOwnModel(heap[o := tr], fate, published, counted[c]) {
      assert InOwnModel(heap, fate, published, counted[c]);
    }
  }

  lemma CountOne(counted: Log, hit: Hit, term: Term, op: Op)
    requires hit.job.call !in counted
    ensures |CallsIn(counted[hit.job.call := hit], term, op)| ==
            |CallsIn(counted, term, op)| + if term == hit.term && op == hit.job.op then 1 else 0
  {
    var c := hit.job.call;
    if term == hit.term && op == hit.job.op {
      assert CallsIn(counted[c := hit], term, op) == CallsIn(counted, term, op) + {c};
    } else {
      assert CallsIn(counted[c := hit], term, op) == CallsIn(counted, term, op);
    }
  }

  lemma OthersExact(heap: Heap, counted: Log, published: seq<Window>, hit: Hit)
    requires Exact(heap, counted, published) && hit.job.call !in counted
    ensures forall u :: u in heap && !heap[u].home.Pooled? && heap[u].term != hit.term ==>
              TraceExact(counted[hit.job.call := hit], heap[u])
    ensures forall i :: 0 <= i < |published| && published[i].term != hit.term ==>
              WindowExact(counted[hit.job.call := hit], published[i])
  {
    forall term, op { CountOne(counted, hit, term, op); }
    forall u | u in heap && !heap[u].home.Pooled? && heap[u].term != hit.term
      ensures TraceExact(counted[hit.job.call := hit], heap[u])
    {
      assert TraceExact(counted, heap[u]);
    }
    forall i | 0 <= i < |published| && published[i].term != hit.term
      ensures WindowExact(counted[hit.job.call := hit], published[i])
    {
      assert WindowExact(counted, published[i]);
    }
  }

  lemma VisitExact(heap: Heap, fate: Fates, counted: Log, published: seq<Window>, o: Obj, job: Job, v: Visit)
    requires Exact(heap, counted, published) && Fated(heap, fate, published)
    requires o in heap && v.trace.term == heap[o].term && v.trace.home == heap[o].home && CountsRight(heap[o], job, v)
    requires v.counts ==> job.call !in counted && !heap[o].home.Pooled?
    ensures Exact(heap[o := v.trace], LogAfter(counted, job, heap[o], v), published)
  {
    var hit := Hit(job, heap[o].term);
    if v.counts {
      OthersExact(heap, counted, published, hit);
    }
    var counted' := LogAfter(counted, job, heap[o], v);
    if !heap[o].home.Pooled? {
      forall op | op != Touch ensures v.trace.Value(op) == |CallsIn(counted', v.trace.term, op)| {
        assert TraceExact(counted, heap[o]);
        if v.counts { CountOne(counted, hit, v.trace.term, op); }
      }
      assert TraceExact(counted', v.trace);
    }
  }

  lemma VisitCalled(pcs: Pcs, calls: set<Call>, counted: Log, t: Thread, pc: Pc, hit: Hit)
    requires Called(pcs, calls, counted) && t in pcs && !pcs[t].Idle? && !pcs[t].Inserted? && hit.job == pcs[t].job
    requires pc.Idle? || (pc.Inserted? && pc.job == hit.job)
    ensures Called(pcs[t := pc], calls, counted[hit.job.call := hit])
  {
  }

  /** Everything a visit to trace `tr` = object `o` promises, without reference to the rest of the state. */
  ghost predicate VisitOk(tr: Trace, t: Thread, was: Pc, o: Obj, v: Visit) {
    && !was.Idle? && (was.Inserted? ==> was.obj == o)
    && Grown(tr, v.trace, t) && TraceOk(v.trace) && CountsRight(tr, was.job, v)
    && v.trace.inserting <= tr.inserting + {t} && (t in v.trace.inserting ==> v.pc.Inserted?)
    && (match v.pc
        case Idle => true
        case Fetching(job) => job == was.job
        case Inserted(job, obj) => job == was.job && obj == o && job.op.Done? && t in v.trace.inserting
        case Bumping(job, obj) =>
          job == was.job && obj == o && job.op.Done? && t in v.trace.bumping && job.op.key in v.trace.buckets
        case _ => false)
    && (v.counts || v.pc.Inserted? || v.pc.Bumping? ==> InUse(tr.home, was.job.model))
    && (v.counts ==> was.job.op != Touch && !was.Inserted? && (v.pc.Idle? || v.pc.Inserted?))
    && (!v.counts ==> v.pc.Idle? || (v.pc.Inserted? <==> was.Inserted?))
    && (v.ends ==> v.counts || was.Inserted?)
  }

  lemma VisitOkHeld(heap: Heap, pcs: Pcs, t: Thread, o: Obj, v: Visit)
    requires Held(heap, pcs) && t in pcs && o in heap && VisitOk(heap[o], t, pcs[t], o, v)
    ensures Held(heap[o := v.trace], pcs[t := v.pc])
  {
    assert MayHold(heap[o := v.trace], t, v.pc);
    VisitHeld(heap, pcs, t, o, v.trace, v.pc);
  }

  lemma VisitOkCalled(pcs: Pcs, calls: set<Call>, counted: Log, t: Thread, tr: Trace, o: Obj, v: Visit)
    requires Called(pcs, calls, counted) && t in pcs && VisitOk(tr, t, pcs[t], o, v)
    ensures Called(pcs[t := v.pc], calls, LogAfter(counted, pcs[t].job, tr, v))
    ensures v.ends ==> pcs[t].job.call in LogAfter(counted, pcs[t].job, tr, v)
  {
    if v.counts {
      VisitCalled(pcs, calls, counted, t, v.pc, Hit(pcs[t].job, tr.term));
    } else {
      CalledMove(pcs, calls, counted, t, v.pc);
    }
  }

  lemma VisitOkOwned(heap: Heap, fate: Fates, published: seq<Window>, counted: Log, was: Pc, t: Thread, o: Obj, v: Visit)
    requires Fated(heap, fate, published) && Owned(heap, fate, published, counted)
    requires o in heap && VisitOk(heap[o], t, was, o, v)
    ensures Owned(heap[o := v.trace], fate, published, LogAfter(counted, was.job, heap[o], v))
  {
    SamePlaceOwned(heap, fate, published, counted, o, v.trace);
    if v.counts {
      assert fate[heap[o].term] == OnObject(o);
      assert InOwnModel(heap[o := v.trace], fate, published, Hit(was.job, heap[o].term));
    }
  }

  lemma VisitKeepsFigures(s: State, t: Thread, o: Obj, v: Visit)
    requires Inv(s) && t in s.pcs && o in s.heap && VisitOk(s.heap[o], t, s.pcs[t], o, v)
    ensures var counted' := LogAfter(s.counted, s.pcs[t].job, s.heap[o], v);
      Exact(s.heap[o := v.trace], counted', s.published) && Owned(s.heap[o := v.trace], s.fate, s.published, counted')
  {
    VisitOkOwned(s.heap, s.fate, s.published, s.counted, s.pcs[t], t, o, v);
    VisitExact(s.heap, s.fate, s.counted, s.published, o, s.pcs[t].job, v);
  }

  lemma VisitKeeps(s: State, t: Thread, o: Obj, v: Visit)
    requires Inv(s) && t in s.pcs && o in s.heap && VisitOk(s.heap[o], t, s.pcs[t], o, v)
    ensures Inv(AfterVisit(s, t, s.pcs[t].job, o, v))
  {
    VisitOkHeld(s.heap, s.pcs, t, o, v);
    VisitOkCalled(s.pcs, s.calls, s.counted, t, s.heap[o], o, v);
    VisitKeepsFigures(s, t, o, v);
    SoundUpdate(s.heap, o, v.trace);
    SamePlace(s.heap, s.live, s.retired, s.fate, s.published, o, v.trace);
  }

  lemma AttemptOk(tr: Trace, t: Thread, job: Job, o: Obj)
    requires TraceOk(tr) && t !in tr.inserting && (InUse(tr.home, job.model) || tr.home.Pooled? || job.op.Touch?)
    ensures VisitOk(tr, t, Holding(job, o), o, AttemptOn(tr, t, job, o))
  {
  }

  lemma InsertDoneOk(tr: Trace, t: Thread, job: Job, o: Obj)
    requires TraceOk(tr) && t in tr.inserting && InUse(tr.home, job.model)
    ensures VisitOk(tr, t, Inserted(job, o), o, InsertDone(tr, t))
  {
  }

  lemma BumpDoneOk(tr: Trace, t: Thread, job: Job, o: Obj)
    requires TraceOk(tr) && t !in tr.inserting && InUse(tr.home, job.model) && job.op.Done? && job.op.key in tr.buckets
    ensures VisitOk(tr, t, Bumping(job, o), o, BumpDone(tr, t, job.op))
  {
    var v := BumpDone(tr, t, job.op);
    assert v.trace.buckets.Keys == tr.buckets.Keys;
    assert |v.trace.buckets| == |tr.buckets|;
  }

  lemma AttemptKeeps(s: State, t: Thread, job: Job, o: Obj)
    requires Inv(s) && t in s.pcs && s.pcs[t] == Holding(job, o)
    ensures o in s.heap && Inv(AfterVisit(s, t, job, o, AttemptOn(s.heap[o], t, job, o)))
  {
    assert MayHold(s.heap, t, s.pcs[t]) && TraceOk(s.heap[o]);
    AttemptOk(s.heap[o], t, job, o);
    VisitKeeps(s, t, o, AttemptOn(s.heap[o], t, job, o));
  }

  lemma FinishInsertKeeps(s: State, t: Thread, job: Job, o: Obj)
    requires Inv(s) && t in s.pcs && s.pcs[t] == Inserted(job, o)
    ensures o in s.heap && Inv(AfterVisit(s, t, job, o, InsertDone(s.heap[o], t)))
  {
    assert MayHold(s.heap, t, s.pcs[t]) && TraceOk(s.heap[o]);
    InsertDoneOk(s.heap[o], t, job, o);
    VisitKeeps(s, t, o, InsertDone(s.heap[o], t));
  }

  lemma FinishBumpKeeps(s: State, t: Thread, job: Job, o: Obj)
    requires Inv(s) && t in s.pcs && s.pcs[t] == Bumping(job, o)
    ensures o in s.heap && job.op.Done? && Inv(AfterVisit(s, t, job, o, BumpDone(s.heap[o], t, job.op)))
  {
    assert MayHold(s.heap, t, s.pcs[t]) && TraceOk(s.heap[o]);
    BumpDoneOk(s.heap[o], t, job, o);
    VisitKeeps(s, t, o, BumpDone(s.heap[o], t, job.op));
  }

  // The map is swapped out, and its windows are published one by one.

  lemma RetireAllHeld(heap: Heap, pcs: Pcs)
    requires Held(heap, pcs)
    ensures Held(RetireAll(heap), pcs)
  {
    forall t | t in pcs ensures MayHold(RetireAll(heap), t, pcs[t]) {
      assert MayHold(heap, t, pcs[t]);
    }
  }

  lemma RetireAllMapped(heap: Heap, live: Slots)
    requires Mapped(heap, live, map[])
    ensures Mapped(RetireAll(heap), map[], live)
  {
  }

  lemma RetireAllExact(heap: Heap, counted: Log, published: seq<Window>)
    requires Exact(heap, counted, published)
    ensures Exact(RetireAll(heap), counted, published)
  {
    forall o | o in heap && !heap[o].home.Pooled? ensures TraceExact(counted, RetireAll(heap)[o]) {
      RehomedExact(counted, heap[o], RetireAll(heap)[o]);
    }
  }

  lemma RetireAllOwned(heap: Heap, fate: Fates, published: seq<Window>, counted: Log)
    requires Fated(heap, fate, published) && Owned(heap, fate, published, counted)
    ensures Fated(RetireAll(heap), fate, published) && Owned(RetireAll(heap), fate, published, counted)
  {
    forall c | c in counted ensures InOwnModel(RetireAll(heap), fate, published, counted[c]) {
      assert InOwnModel(heap, fate, published, counted[c]);
    }
  }

  lemma SwapMapKeeps(s: State)
    requires Inv(s) && s.publisher.Loaded?
    ensures Inv(s.(retired := s.live, live := map[], heap := RetireAll(s.heap), publisher := Resetting(s.publisher.n, 0)))
  {
    RetireAllHeld(s.heap, s.pcs);
    RetireAllMapped(s.heap, s.live);
    RetireAllExact(s.heap, s.counted, s.published);
    RetireAllOwned(s.heap, s.fate, s.published, s.counted);
    assert Sound(RetireAll(s.heap));
  }

  lemma EmitHeld(heap: Heap, pcs: Pcs, o: Obj, tr: Trace)
    requires Held(heap, pcs) && o in heap && heap[o].home.Retired? && heap[o].Unlocked()
    requires Rehomed(heap[o], tr) && tr.home.Pooled?
    ensures Held(heap[o := tr], pcs)
  {
    forall t | t in pcs ensures MayHold(heap[o := tr], t, pcs[t]) {
      assert MayHold(heap, t, pcs[t]);
    }
  }

  lemma EmitMapped(heap: Heap, live: Slots, retired: Slots, m: Model, tr: Trace)
    requires Mapped(heap, live, retired) && m in retired && tr.home.Pooled?
    ensures Mapped(heap[retired[m] := tr], live, retired - {m})
  {
  }

  lemma EmitFated(heap: Heap, fate: Fates, published: seq<Window>, m: Model, o: Obj, tr: Trace)
    requires Fated(heap, fate, published)
    requires o in heap && !heap[o].home.Pooled? && Rehomed(heap[o], tr) && tr.home.Pooled?
    ensures Fated(heap[o := tr], fate[tr.term := Published(|published|)], published + [WindowOf(m, heap[o])])
  {
  }

  lemma EmitOwned(heap: Heap, fate: Fates, published: seq<Window>, counted: Log, m: Model, o: Obj, tr: Trace)
    requires Fated(heap, fate, published) && Owned(heap, fate, published, counted)
    requires o in heap && heap[o].home == Retired(m) && Rehomed(heap[o], tr) && tr.home.Pooled?
    ensures Owned(heap[o := tr], fate[tr.term := Published(|published|)], published + [WindowOf(m, heap[o])], counted)
  {
    forall c | c in counted
      ensures InOwnModel(heap[o := tr], fate[tr.term := Published(|published|)],
                         published + [WindowOf(m, heap[o])], counted[c])
    {
      assert InOwnModel(heap, fate, published, counted[c]);
    }
  }

  lemma WindowOfExact(counted: Log, m: Model, tr: Trace)
    requires TraceExact(counted, tr)
    ensures WindowExact(counted, WindowOf(m, tr))
  {
    forall op | op != Touch ensures WindowOf(m, tr).Value(op) == |CallsIn(counted, tr.term, op)| {
      assert WindowOf(m, tr).Value(op) == tr.Value(op);
    }
  }

  lemma PublishKeeps(s: State, m: Model)
    requires Inv(s) && m in s.retired && s.publisher.Publishing?
    requires s.retired[m] in s.heap && s.heap[s.retired[m]].Unlocked()
    ensures Inv(Emit(s, m, s.retired[m]))
  {
    var o := s.retired[m];
    var tr := Recycled(s.heap[o]);
    EmitHeld(s.heap, s.pcs, o, tr);
    EmitMapped(s.heap, s.live, s.retired, m, tr);
    EmitFated(s.heap, s.fate, s.published, m, o, tr);
    EmitOwned(s.heap, s.fate, s.published, s.counted, m, o, tr);
    WindowOfExact(s.counted, m, s.heap[o]);
    SoundUpdate(s.heap, o, tr);
    ExactUpdate(s.heap, s.counted, s.published, o, tr);
  }

  lemma StartKeeps(s: State, t: Thread, job: Job)
    requires Inv(s) && t in s.pcs && s.pcs[t].Idle? && job.call !in s.calls
    ensures Inv(s.(pcs := s.pcs[t := Fetching(job)], calls := s.calls + {job.call}))
  {
    HeldMove(s.heap, s.pcs, t, Fetching(job));
  }

  lemma IncrementKeeps(s: State, t: Thread, job: Job, mine: Obj)
    requires Inv(s) && t in s.pcs && s.pcs[t] == Stored(job, mine)
    ensures Inv(s.(counter := s.counter + 1, pcs := s.pcs[t := Holding(job, mine)]))
  {
    assert MayHold(s.heap, t, s.pcs[t]);
    HeldMove(s.heap, s.pcs, t, Holding(job, mine));
    CalledMove(s.pcs, s.calls, s.counted, t, Holding(job, mine));
  }

  lemma CounterOnly(s: State, counter: int, publisher: Publisher)
    requires Inv(s) && (publisher.Waiting? || publisher.Started? || publisher.Loaded? ==> s.retired == map[])
    ensures Inv(s.(counter := counter, publisher := publisher))
  {
  }

  lemma CallerKeeps(s: State, step: Step)
    requires Inv(s) && step.ByCaller() && Enabled(s, step)
    ensures Inv(ApplyCaller(s, step))
  {
    var t := step.t;
    var pc := s.pcs[t];
    match step
    case Start(_, job) => StartKeeps(s, t, job);
    case FromPool(_, o, term) => FromPoolKeeps(s, t, pc.job, o, term);
    case LoadOrStore(_) => LoadOrStoreKeeps(s, t, pc.job, pc.mine);
    case RecycleOwn(_) => RecycleOwnKeeps(s, t, pc.job, pc.mine, pc.got);
    case Increment(_) => IncrementKeeps(s, t, pc.job, pc.mine);
    case Attempt(_) => AttemptKeeps(s, t, pc.job, pc.obj);
    case FinishInsert(_) => FinishInsertKeeps(s, t, pc.job, pc.obj);
    case FinishBump(_) => FinishBumpKeeps(s, t, pc.job, pc.obj);
  }

  lemma PublisherKeeps(s: State, step: Step)
    requires Inv(s) && !step.ByCaller() && Enabled(s, step)
    ensures Inv(ApplyPublisher(s, step))
  {
    match step
    case SwapMap => SwapMapKeeps(s);
    case Publish(m) => PublishKeeps(s, m);
    case Tick => CounterOnly(s, s.counter, Started);
    case LoadCounter => CounterOnly(s, s.counter, Loaded(s.counter));
    case CompareAndSwap =>
      CounterOnly(s, s.publisher.to, Publishing);
      CounterOnly(s, s.counter, Reloading(s.publisher.n));
    case Reload => CounterOnly(s, s.counter, Resetting(s.counter, s.counter - s.publisher.n));
    case Rest => CounterOnly(s, s.counter, Waiting);
  }

  // --- conservation -----------------------------------------------------------------------------

  /** Calls of one model and operation that have been counted, in whatever window. */
  function CallsFor(counted: Log, m: Model, op: Op): set<Call> {
    set c | c in counted && counted[c].job.model == m && counted[c].job.op == op
  }

  function PublishedTotal(published: seq<Window>, m: Model, op: Op): int {
    if published == [] then 0
    else
      var last := published[|published| - 1];
      PublishedTotal(published[..|published| - 1], m, op) + if last.model == m then last.Value(op) else 0
  }

  function OpenTotal(heap: Heap, slots: Slots, m: Model, op: Op): int {
    if m in slots && slots[m] in heap then heap[slots[m]].Value(op) else 0
  }

  /** Published plus unpublished figures equal the calls counted, for every model and every bucket. */
  ghost predicate Balanced(heap: Heap, live: Slots, retired: Slots, published: seq<Window>, counted: Log, m: Model, op: Op) {
    |CallsFor(counted, m, op)| ==
    PublishedTotal(published, m, op) + OpenTotal(heap, live, m, op) + OpenTotal(heap, retired, m, op)
  }

  ghost predicate Conserved(s: State) {
    forall m, op :: op != Touch ==> Balanced(s.heap, s.live, s.retired, s.published, s.counted, m, op)
  }

  lemma CallsForOne(counted: Log, hit: Hit, m: Model, op: Op)
    requires hit.job.call !in counted
    ensures |CallsFor(counted[hit.job.call := hit], m, op)| ==
            |CallsFor(counted, m, op)| + if m == hit.job.model && op == hit.job.op then 1 else 0
  {
    var c := hit.job.call;
    if m == hit.job.model && op == hit.job.op {
      assert CallsFor(counted[c := hit], m, op) == CallsFor(counted, m, op) + {c};
    } else {
      assert CallsFor(counted[c := hit], m, op) == CallsFor(counted, m, op);
    }
  }

  lemma OffMapBalanced(heap: Heap, live: Slots, retired: Slots, published: seq<Window>, counted: Log,
                       o: Obj, tr: Trace, m: Model, op: Op)
    requires Mapped(heap, live, retired) && (o in heap ==> OffMap(heap[o].home))
    requires Balanced(heap, live, retired, published, counted, m, op)
    ensures Balanced(heap[o := tr], live, retired, published, counted, m, op)
  {
  }

  /** A trace nobody else has seen shows nothing. */
  lemma PrivateEmpty(s: State, o: Obj, op: Op)
    requires Inv(s) && o in s.heap && s.heap[o].home.Private? && op != Touch
    ensures s.heap[o].Value(op) == 0
  {
    assert TraceExact(s.counted, s.heap[o]);
    forall c | c in s.counted ensures s.counted[c].term != s.heap[o].term {
      assert InOwnModel(s.heap, s.fate, s.published, s.counted[c]);
    }
    assert CallsIn(s.counted, s.heap[o].term, op) == {};
  }

  lemma StoreSlots(heap: Heap, live: Slots, retired: Slots, w: Model, mine: Obj, tr: Trace, m: Model, op: Op)
    requires Mapped(heap, live, retired) && mine in heap && heap[mine].home.Private? && w !in live && tr.Value(op) == 0
    ensures OpenTotal(heap[mine := tr], live[w := mine], m, op) == OpenTotal(heap, live, m, op)
    ensures OpenTotal(heap[mine := tr], retired, m, op) == OpenTotal(heap, retired, m, op)
  {
  }

  lemma OfferBalanced(s: State, t: Thread, job: Job, mine: Obj, m: Model, op: Op)
    requires Inv(s) && Conserved(s) && t in s.pcs && s.pcs[t] == Fresh(job, mine) && mine in s.heap && op != Touch
    ensures var s' := Offer(s, t, job, mine);
      Balanced(s'.heap, s'.live, s'.retired, s'.published, s'.counted, m, op)
  {
    assert MayHold(s.heap, t, s.pcs[t]);
    assert Balanced(s.heap, s.live, s.retired, s.published, s.counted, m, op);
    if job.model !in s.live {
      PrivateEmpty(s, mine, op);
      var tr := s.heap[mine].(home := Live(job.model));
      assert tr.Value(op) == s.heap[mine].Value(op);
      StoreSlots(s.heap, s.live, s.retired, job.model, mine, tr, m, op);
    }
  }

  lemma VisitSlots(heap: Heap, live: Slots, retired: Slots, o: Obj, tr: Trace, d: int, m: Model, op: Op)
    requires Mapped(heap, live, retired) && o in heap && tr.home == heap[o].home
    requires tr.Value(op) == heap[o].Value(op) + d
    ensures OpenTotal(heap[o := tr], live, m, op) + OpenTotal(heap[o := tr], retired, m, op) ==
            OpenTotal(heap, live, m, op) + OpenTotal(heap, retired, m, op) + if InUse(heap[o].home, m) then d else 0
  {
  }

  lemma VisitBalanced(heap: Heap, live: Slots, retired: Slots, published: seq<Window>, counted: Log,
                      t: Thread, was: Pc, o: Obj, v: Visit, m: Model, op: Op)
    requires Mapped(heap, live, retired) && o in heap && VisitOk(heap[o], t, was, o, v) && op != Touch
    requires v.counts ==> was.job.call !in counted
    requires Balanced(heap, live, retired, published, counted, m, op)
    ensures Balanced(heap[o := v.trace], live, retired, published, LogAfter(counted, was.job, heap[o], v), m, op)
  {
    VisitSlots(heap, live, retired, o, v.trace, if v.counts && op == was.job.op then 1 else 0, m, op);
    if v.counts {
      CallsForOne(counted, Hit(was.job, heap[o].term), m, op);
    }
  }

  lemma SwapBalanced(heap: Heap, live: Slots, published: seq<Window>, counted: Log, m: Model, op: Op)
    requires Balanced(heap, live, map[], published, counted, m, op)
    ensures Balanced(RetireAll(heap), map[], live, published, counted, m, op)
  {
    assert forall o :: o in heap ==> RetireAll(heap)[o].Value(op) == heap[o].Value(op);
  }

  lemma EmitBalanced(heap: Heap, live: Slots, retired: Slots, published: seq<Window>, counted: Log,
                     w: Model, tr: Trace, m: Model, op: Op)
    requires Mapped(heap, live, retired) && w in retired
    requires Balanced(heap, live, retired, published, counted, m, op)
    ensures Balanced(heap[retired[w] := tr], live, retired - {w}, published + [WindowOf(w, heap[retired[w]])], counted, m, op)
  {
    var p' := published + [WindowOf(w, heap[retired[w]])];
    assert p'[..|p'| - 1] == published;
    assert WindowOf(w, heap[retired[w]]).Value(op) == heap[retired[w]].Value(op);
  }

  lemma VisitConserves(s: State, step: Step, m: Model, op: Op)
    requires Inv(s) && Enabled(s, step) && (step.Attempt? || step.FinishInsert? || step.FinishBump?) && op != Touch
    requires Balanced(s.heap, s.live, s.retired, s.published, s.counted, m, op)
    ensures var s' := ApplyCaller(s, step);
      Balanced(s'.heap, s'.live, s'.retired, s'.published, s'.counted, m, op)
  {
    var t, pc := step.t, s.pcs[step.t];
    var o := pc.obj;
    assert MayHold(s.heap, t, pc);
    var v;
    if step.Attempt? {
      AttemptOk(s.heap[o], t, pc.job, o);
      v := AttemptOn(s.heap[o], t, pc.job, o);
    } else if step.FinishInsert? {
      InsertDoneOk(s.heap[o], t, pc.job, o);
      v := InsertDone(s.heap[o], t);
    } else {
      BumpDoneOk(s.heap[o], t, pc.job, o);
      v := BumpDone(s.heap[o], t, pc.job.op);
    }
    VisitBalanced(s.heap, s.live, s.retired, s.published, s.counted, t, pc, o, v, m, op);
  }

  lemma CallerConserves(s: State, step: Step, m: Model, op: Op)
    requires Inv(s) && Conserved(s) && step.ByCaller() && Enabled(s, step) && op != Touch
    ensures var s' := ApplyCaller(s, step);
      Balanced(s'.heap, s'.live, s'.retired, s'.published, s'.counted, m, op)
  {
    var t := step.t;
    var pc := s.pcs[t];
    assert Balanced(s.heap, s.live, s.retired, s.published, s.counted, m, op);
    assert MayHold(s.heap, t, pc);
    match step
    case Start(_, _) =>
    case Increment(_) =>
    case FromPool(_, o, term) =>
      OffMapBalanced(s.heap, s.live, s.retired, s.published, s.counted, o, Reissued(s.heap, t, o, term), m, op);
    case LoadOrStore(_) => OfferBalanced(s, t, pc.job, pc.mine, m, op);
    case RecycleOwn(_) =>
      OffMapBalanced(s.heap, s.live, s.retired, s.published, s.counted, pc.mine, Recycled(s.heap[pc.mine]), m, op);
    case Attempt(_) => VisitConserves(s, step, m, op);
    case FinishInsert(_) => VisitConserves(s, step, m, op);
    case FinishBump(_) => VisitConserves(s, step, m, op);
  }

  lemma CounterStep(s: State, step: Step)
    requires !step.ByCaller() && Enabled(s, step) && !step.SwapMap? && !step.Publish?
    ensures var s' := ApplyPublisher(s, step);
      s' == s.(counter := s'.counter, publisher := s'.publisher)
  {
  }

  lemma PublisherConserves(s: State, step: Step, m: Model, op: Op)
    requires Mapped(s.heap, s.live, s.retired) && (s.publisher.Loaded? ==> s.retired == map[])
    requires Balanced(s.heap, s.live, s.retired, s.published, s.counted, m, op) && !step.ByCaller() && Enabled(s, step)
    ensures var s' := ApplyPublisher(s, step);
      Balanced(s'.heap, s'.live, s'.retired, s'.published, s'.counted, m, op)
  {
    if step.SwapMap? {
      SwapBalanced(s.heap, s.live, s.published, s.counted, m, op);
    } else if step.Publish? {
      var w := step.model;
      EmitBalanced(s.heap, s.live, s.retired, s.published, s.counted, w, Recycled(s.heap[s.retired[w]]), m, op);
    } else {
      CounterStep(s, step);
    }
  }

  lemma StepKeeps(s: State, step: Step)
    requires Inv(s) && Conserved(s) && Enabled(s, step)
    ensures Inv(Apply(s, step)) && Conserved(Apply(s, step))
  {
    var s' := Apply(s, step);
    forall m, op | op != Touch ensures Balanced(s'.heap, s'.live, s'.retired, s'.published, s'.counted, m, op) {
      if step.ByCaller() {
        CallerConserves(s, step, m, op);
      } else {
        PublisherConserves(s, step, m, op);
      }
    }
    if step.ByCaller() {
      CallerKeeps(s, step);
    } else {
      PublisherKeeps(s, step);
    }
  }

  lemma {:induction false} RunKeeps(s: State, steps: seq<Step>, s': State)
    requires Inv(s) && Conserved(s) && Run(s, steps, s')
    ensures Inv(s') && Conserved(s')
    decreases |steps|
  {
    if steps != [] {
      StepKeeps(s, steps[0]);
      RunKeeps(Apply(s, steps[0]), steps[1..], s');
    }
  }

  lemma InitialInv(s: State)
    requires Initial(s)
    ensures Inv(s) && Conserved(s) && CounterOk(s)
  {
    assert forall m, op :: CallsFor(s.counted, m, op) == {};
  }

  /**
   * Trace conservation under every interleaving: for every model and every figure (the request total
   * or one bucket), what was published plus what the open windows show is the number of calls counted.
   */
  lemma TracesConserved(s0: State, steps: seq<Step>, s: State, m: Model, op: Op)
    requires Initial(s0) && Run(s0, steps, s) && op != Touch
    ensures |CallsFor(s.counted, m, op)| ==
            PublishedTotal(s.published, m, op) + OpenTotal(s.heap, s.live, m, op) + OpenTotal(s.heap, s.retired, m, op)
  {
    InitialInv(s0);
    RunKeeps(s0, steps, s);
    assert Balanced(s.heap, s.live, s.retired, s.published, s.counted, m, op);
  }

  /**
   * Exactly one window: a call that has returned is counted under exactly one term (`counted` is a map),
   * which names a window of its own model that is still open or was published; and each published
   * window shows, figure by figure, exactly the calls counted under its term.
   */
  lemma CountedOnceInOwnModel(s0: State, steps: seq<Step>, s: State, c: Call)
    requires Initial(s0) && Run(s0, steps, s) && c in s.returned
    ensures c in s.counted && InOwnModel(s.heap, s.fate, s.published, s.counted[c])
    ensures forall i :: 0 <= i < |s.published| ==> WindowExact(s.counted, s.published[i])
    ensures forall i, j :: 0 <= i < j < |s.published| ==> s.published[i].term != s.published[j].term
  {
    InitialInv(s0);
    RunKeeps(s0, steps, s);
    forall i, j | 0 <= i < j < |s.published| ensures s.published[i].term != s.published[j].term {
      assert s.fate[s.published[i].term] == Published(i) && s.fate[s.published[j].term] == Published(j);
    }
  }

  /** A pooled trace comes back with no requests and no buckets, whatever happened to it before. */
  lemma ReissuedTraceIsEmpty(s0: State, steps: seq<Step>, s: State, t: Thread, o: Obj, term: Term)
    requires Initial(s0) && Run(s0, steps, s) && o in s.heap && s.heap[o].home.Pooled?
    ensures s.heap[o].numKeys == |s.heap[o].buckets|
    ensures var tr := Reissued(s.heap, t, o, term); tr.numRequests == 0 && tr.buckets == map[] && tr.numKeys == 0
  {
    InitialInv(s0);
    RunKeeps(s0, steps, s);
    assert TraceOk(s.heap[o]);
    ReissuedEmpty(s.heap, t, o, term);
  }

  /** Recycling never calls a nil recycler: whatever is about to be recycled still has one. */
  lemma RecyclerPresent(s0: State, steps: seq<Step>, s: State)
    requires Initial(s0) && Run(s0, steps, s)
    ensures forall t :: t in s.pcs && s.pcs[t].Surplus? ==>
              s.pcs[t].mine in s.heap && s.heap[s.pcs[t].mine].hasRecycler
    ensures forall m :: m in s.retired ==> s.retired[m] in s.heap && s.heap[s.retired[m]].hasRecycler
  {
    InitialInv(s0);
    RunKeeps(s0, steps, s);
    forall t | t in s.pcs && s.pcs[t].Surplus? ensures s.pcs[t].mine in s.heap && s.heap[s.pcs[t].mine].hasRecycler {
      assert MayHold(s.heap, t, s.pcs[t]) && TraceOk(s.heap[s.pcs[t].mine]);
    }
  }

  // --- who is in the read lock, and when a call has returned ----------------------------------------

  /** Only goroutines about to bump a bucket of the trace are listed as doing so. */
  ghost predicate Bumpers(heap: Heap, pcs: Pcs) {
    forall o, t :: o in heap && t in heap[o].bumping ==> t in pcs && pcs[t].Bumping? && pcs[t].obj == o
  }

  /** A call in progress has not returned. */
  ghost predicate Pending(pcs: Pcs, returned: set<Call>) {
    forall t :: t in pcs && !pcs[t].Idle? ==> pcs[t].job.call !in returned
  }

  ghost predicate Progress(s: State) { Bumpers(s.heap, s.pcs) && Pending(s.pcs, s.returned) }

  lemma BumpersMove(heap: Heap, pcs: Pcs, t: Thread, o: Obj, tr: Trace, pc: Pc)
    requires Bumpers(heap, pcs) && t in pcs && (pcs[t].Bumping? ==> pcs[t].obj == o)
    requires tr.bumping <= (if o in heap then heap[o].bumping else {}) + {t}
    requires t in tr.bumping ==> pc.Bumping? && pc.obj == o
    ensures Bumpers(heap[o := tr], pcs[t := pc])
  {
  }

  /** The caller moves on within its call, which may thereby return. */
  lemma PendingMove(pcs: Pcs, calls: set<Call>, counted: Log, returned: set<Call>, t: Thread, pc: Pc, ends: bool)
    requires Called(pcs, calls, counted) && Pending(pcs, returned) && t in pcs && !pcs[t].Idle?
    requires pc.Idle? || (pc.job == pcs[t].job && !ends)
    ensures Pending(pcs[t := pc], if ends then returned + {pcs[t].job.call} else returned)
  {
  }

  /** What a visit leaves of the lock and of the call. */
  predicate VisitMoves(tr: Trace, t: Thread, job: Job, o: Obj, v: Visit) {
    && v.trace.bumping <= tr.bumping + {t} && (t in v.trace.bumping ==> v.pc.Bumping? && v.pc.obj == o)
    && (v.pc.Idle? || (v.pc.job == job && !v.ends)) && (v.ends <==> v.pc.Idle? && !job.op.Touch?)
  }

  lemma VisitsMove(tr: Trace, t: Thread, job: Job, o: Obj)
    requires t !in tr.bumping
    ensures VisitMoves(tr, t, job, o, AttemptOn(tr, t, job, o))
    ensures job.op.Done? ==> VisitMoves(tr, t, job, o, InsertDone(tr, t))
  {
  }

  lemma BumpMoves(tr: Trace, t: Thread, job: Job, o: Obj)
    requires job.op.Done?
    ensures VisitMoves(tr, t, job, o, BumpDone(tr, t, job.op))
  {
  }

  lemma VisitProgress(s: State, t: Thread, o: Obj, v: Visit)
    requires Called(s.pcs, s.calls, s.counted) && Progress(s) && t in s.pcs && !s.pcs[t].Idle? && o in s.heap
    requires (s.pcs[t].Bumping? ==> s.pcs[t].obj == o) && VisitMoves(s.heap[o], t, s.pcs[t].job, o, v)
    ensures Progress(AfterVisit(s, t, s.pcs[t].job, o, v))
  {
    BumpersMove(s.heap, s.pcs, t, o, v.trace, v.pc);
    PendingMove(s.pcs, s.calls, s.counted, s.returned, t, v.pc, v.ends);
  }

  lemma AwayMoves(heap: Heap, pcs: Pcs, t: Thread, pc: Pc)
    requires Bumpers(heap, pcs) && t in pcs && !pcs[t].Bumping?
    ensures Bumpers(heap, pcs[t := pc])
  {
  }

  predicate Visits(step: Step) { step.Attempt? || step.FinishInsert? || step.FinishBump? }

  /** The visit a step makes. */
  function VisitOf(s: State, step: Step): Visit
    requires Visits(step) && Enabled(s, step)
  {
    var pc := s.pcs[step.t];
    var tr := s.heap[pc.obj];
    match step
    case Attempt(t) => AttemptOn(tr, t, pc.job, pc.obj)
    case FinishInsert(t) => InsertDone(tr, t)
    case FinishBump(t) => BumpDone(tr, t, pc.job.op)
  }

  lemma VisitOfMoves(s: State, step: Step)
    requires Bumpers(s.heap, s.pcs) && Held(s.heap, s.pcs) && Visits(step) && Enabled(s, step)
    ensures var pc := s.pcs[step.t]; VisitMoves(s.heap[pc.obj], step.t, pc.job, pc.obj, VisitOf(s, step))
  {
    var pc := s.pcs[step.t];
    assert MayHold(s.heap, step.t, pc);
    if step.FinishBump? {
      BumpMoves(s.heap[pc.obj], step.t, pc.job, pc.obj);
    } else {
      VisitsMove(s.heap[pc.obj], step.t, pc.job, pc.obj);
    }
  }

  lemma FetchBumpers(s: State, step: Step)
    requires Bumpers(s.heap, s.pcs) && step.ByCaller() && Enabled(s, step) && !Visits(step)
    ensures Bumpers(ApplyCaller(s, step).heap, ApplyCaller(s, step).pcs)
  {
    var t, pc, s' := step.t, s.pcs[step.t], ApplyCaller(s, step);
    match step
    case FromPool(_, o, term) => BumpersMove(s.heap, s.pcs, t, o, Reissued(s.heap, t, o, term), s'.pcs[t]);
    case LoadOrStore(_) =>
      if pc.job.model in s.live {
        AwayMoves(s.heap, s.pcs, t, s'.pcs[t]);
      } else {
        BumpersMove(s.heap, s.pcs, t, pc.mine, s'.heap[pc.mine], s'.pcs[t]);
      }
    case RecycleOwn(_) => BumpersMove(s.heap, s.pcs, t, pc.mine, s'.heap[pc.mine], s'.pcs[t]);
    case Start(_, _) => AwayMoves(s.heap, s.pcs, t, s'.pcs[t]);
    case Increment(_) => AwayMoves(s.heap, s.pcs, t, s'.pcs[t]);
  }

  lemma FetchPending(s: State, step: Step)
    requires Called(s.pcs, s.calls, s.counted) && s.returned <= s.calls && Pending(s.pcs, s.returned)
    requires step.ByCaller() && Enabled(s, step) && !Visits(step)
    ensures Pending(ApplyCaller(s, step).pcs, ApplyCaller(s, step).returned)
    ensures ApplyCaller(s, step).returned == s.returned && !ApplyCaller(s, step).pcs[step.t].Idle?
  {
    var t, s' := step.t, ApplyCaller(s, step);
    if !step.Start? {
      assert s'.pcs == s.pcs[t := s'.pcs[t]];
      PendingMove(s.pcs, s.calls, s.counted, s.returned, t, s'.pcs[t], false);
    }
  }

  lemma CallerProgress(s: State, step: Step)
    requires Inv(s) && Progress(s) && step.ByCaller() && Enabled(s, step)
    ensures Progress(ApplyCaller(s, step))
  {
    if Visits(step) {
      VisitOfMoves(s, step);
      VisitProgress(s, step.t, s.pcs[step.t].obj, VisitOf(s, step));
    } else {
      FetchBumpers(s, step);
      FetchPending(s, step);
    }
  }

  lemma PublisherProgress(s: State, step: Step)
    requires Progress(s) && !step.ByCaller() && Enabled(s, step)
    ensures Progress(ApplyPublisher(s, step))
  {
    if step.SwapMap? {
      assert forall o :: o in s.heap ==> RetireAll(s.heap)[o].bumping == s.heap[o].bumping;
    } else if !step.Publish? {
      CounterStep(s, step);
    }
  }

  lemma {:induction false} RunProgress(s: State, steps: seq<Step>, s': State)
    requires Inv(s) && Conserved(s) && Progress(s) && Run(s, steps, s')
    ensures Inv(s') && Progress(s')
    decreases |steps|
  {
    if steps != [] {
      StepKeeps(s, steps[0]);
      if steps[0].ByCaller() {
        CallerProgress(s, steps[0]);
      } else {
        PublisherProgress(s, steps[0]);
      }
      RunProgress(Apply(s, steps[0]), steps[1..], s');
    }
  }

  /** Who is in a trace's read lock is exactly who is between the two updates of a Done on it. */
  lemma LockHoldersExact(s0: State, steps: seq<Step>, s: State, o: Obj, t: Thread)
    requires Initial(s0) && Run(s0, steps, s) && o in s.heap && t in s.pcs
    ensures t in s.heap[o].inserting <==> s.pcs[t].Inserted? && s.pcs[t].obj == o
    ensures t in s.heap[o].bumping <==> s.pcs[t].Bumping? && s.pcs[t].obj == o
  {
    InitialInv(s0);
    RunProgress(s0, steps, s);
    assert MayHold(s.heap, t, s.pcs[t]);
  }

  /** An Add or a Done is over exactly when it is recorded as returned; a DoneRequestCount is never recorded. */
  lemma ReturnedExactly(s0: State, steps: seq<Step>, s: State, step: Step)
    requires Initial(s0) && Run(s0, steps, s) && Enabled(s, step) && step.ByCaller() && !s.pcs[step.t].Idle?
    ensures var s' := Apply(s, step); var job := s.pcs[step.t].job;
      job.call in s'.returned <==> s'.pcs[step.t].Idle? && !job.op.Touch?
  {
    InitialInv(s0);
    RunProgress(s0, steps, s);
    if Visits(step) { VisitOfMoves(s, step); } else { FetchPending(s, step); }
  }

  // --- what the pool must not do ------------------------------------------------------------------

  lemma {:induction false} RunThen(s: State, steps: seq<Step>, mid: State, step: Step)
    requires Run(s, steps, mid) && Enabled(mid, step)
    ensures Run(s, steps + [step], Apply(mid, step))
    decreases |steps|
  {
    if steps == [] {
      assert (steps + [step])[1..] == [];
    } else {
      RunThen(Apply(s, steps[0]), steps[1..], mid, step);
      assert (steps + [step])[1..] == steps[1..] + [step];
    }
  }

  /** A caller whose model has no window stores one. */
  lemma OpensWindow(s0: State, steps: seq<Step>, s: State, t: Thread, job: Job, o: Obj, term: Term)
    returns (more: seq<Step>, s': State)
    requires Run(s0, steps, s) && t in s.pcs && s.pcs[t].Idle? && job.call !in s.calls
    requires o !in s.heap && term !in s.fate && job.model !in s.live
    ensures Run(s0, more, s') && s'.pcs == s.pcs[t := Stored(job, o)] && s'.live == s.live[job.model := o]
    ensures s'.heap == s.heap[o := Trace(map[], 0, 0, term, true, {}, {}, Live(job.model))]
    ensures s'.counter == s.counter && s'.publisher == s.publisher && s'.retired == s.retired
    ensures s'.fate == s.fate[term := OnObject(o)] && s'.calls == s.calls + {job.call}
  {
    var a := Apply(s, Start(t, job));
    RunThen(s0, steps, s, Start(t, job));
    var b := Apply(a, FromPool(t, o, term));
    RunThen(s0, steps + [Start(t, job)], a, FromPool(t, o, term));
    s' := Apply(b, LoadOrStore(t));
    RunThen(s0, steps + [Start(t, job)] + [FromPool(t, o, term)], b, LoadOrStore(t));
    more := steps + [Start(t, job)] + [FromPool(t, o, term)] + [LoadOrStore(t)];
    assert s'.pcs == s.pcs[t := Stored(job, o)];
  }

  /** The ticker takes a single window out of the live map. */
  lemma SwapsOut(s0: State, steps: seq<Step>, s: State, m: Model, o: Obj) returns (more: seq<Step>, s': State)
    requires Run(s0, steps, s) && s.publisher.Waiting? && s.counter == 1 && s.live == map[m := o]
    requires o in s.heap && s.heap[o].home == Live(m)
    ensures Run(s0, more, s') && s'.publisher == Resetting(1, 0) && s'.counter == 1 && s'.retired == map[m := o]
    ensures s'.pcs == s.pcs && s'.live == map[] && s'.calls == s.calls && s'.fate == s.fate
    ensures o in s'.heap && s'.heap[o] == s.heap[o].(home := Retired(m)) && s'.heap.Keys == s.heap.Keys
  {
    var a := Apply(s, Tick);
    RunThen(s0, steps, s, Tick);
    var b := Apply(a, LoadCounter);
    RunThen(s0, steps + [Tick], a, LoadCounter);
    s' := Apply(b, SwapMap);
    RunThen(s0, steps + [Tick] + [LoadCounter], b, SwapMap);
    more := steps + [Tick] + [LoadCounter] + [SwapMap];
  }

  /** A whole round of the ticker over a single window. */
  lemma PublishesOne(s0: State, steps: seq<Step>, s: State, m: Model, o: Obj) returns (more: seq<Step>, s': State)
    requires Run(s0, steps, s) && s.publisher.Waiting? && s.counter == 1 && s.live == map[m := o]
    requires o in s.heap && s.heap[o].Unlocked() && s.heap[o].home == Live(m)
    ensures Run(s0, more, s') && s'.pcs == s.pcs && s'.live == map[] && s'.calls == s.calls
    ensures o in s'.heap && s'.heap[o].home.Pooled? && s'.heap.Keys == s.heap.Keys
    ensures s'.fate.Keys == s.fate.Keys + {s.heap[o].term}
  {
    var a;
    more, a := SwapsOut(s0, steps, s, m, o);
    var b := Apply(a, CompareAndSwap);
    RunThen(s0, more, a, CompareAndSwap);
    s' := Apply(b, Publish(m));
    RunThen(s0, more + [CompareAndSwap], b, Publish(m));
    more := more + [CompareAndSwap] + [Publish(m)];
  }

  /** The first caller opens a window and counts it, but has not attempted its request yet. */
  lemma HeldWindowReached(m: Model) returns (s0: State, steps: seq<Step>, s: State)
    ensures Initial(s0) && Run(s0, steps, s) && s.publisher.Waiting? && s.counter == 1 && s.live == map[m := 0]
    ensures s.pcs == map[0 := Holding(Job(0, m, Add), 0), 1 := Idle, 2 := Idle] && s.calls == {0}
    ensures s.heap == map[0 := Trace(map[], 0, 0, 10, true, {}, {}, Live(m))] && s.fate == map[10 := OnObject(0)]
  {
    var pcs: Pcs := map[0 := Idle, 1 := Idle, 2 := Idle];
    s0 := State(map[], map[], map[], 0, Waiting, pcs, [], map[], map[], {}, {});
    var job := Job(0, m, Add);
    var mid;
    steps, mid := OpensWindow(s0, [], s0, 0, job, 0, 10);
    RunThen(s0, steps, mid, Increment(0));
    steps, s := steps + [Increment(0)], Apply(mid, Increment(0));
    assert s.pcs == map[0 := Holding(job, 0), 1 := Idle, 2 := Idle];
  }

  lemma PublishedWhileHeld(m: Model) returns (s0: State, steps: seq<Step>, s: State)
    ensures Initial(s0) && Run(s0, steps, s) && s.live == map[] && s.calls == {0} && s.fate.Keys == {10}
    ensures s.pcs == map[0 := Holding(Job(0, m, Add), 0), 1 := Idle, 2 := Idle]
    ensures s.heap.Keys == {0} && s.heap[0].home.Pooled?
  {
    var held;
    s0, steps, held := HeldWindowReached(m);
    steps, s := PublishesOne(s0, steps, held, m, 0);
  }

  /** A call that has returned is counted in no window of its own model that is open or published. */
  ghost predicate Miscounts(s: State, c: Call) {
    c in s.returned && (c in s.counted ==> !InOwnModel(s.heap, s.fate, s.published, s.counted[c]))
  }

  ghost predicate CanMiscount(s: State) {
    exists steps, s', c :: Run(s, steps, s') && Miscounts(s', c)
  }

  lemma {:induction false} Above(xs: set<int>) returns (n: nat)
    ensures forall x :: x in xs ==> x < n
    decreases |xs|
  {
    n := 0;
    if x :| x in xs {
      var m := Above(xs - {x});
      n := if m <= x then x + 1 else m;
      assert forall y :: y in xs ==> y == x || y in xs - {x};
    }
  }

  /** `o` is with `t`, empty and under its new term, while `u` can still count `job` on it. */
  ghost predicate Shared(s: State, t: Thread, o: Obj, term: Term, u: Thread, job: Job) {
    && t in s.pcs && u in s.pcs && t != u && s.pcs[t].Fresh? && s.pcs[t].mine == o
    && !s.pcs[u].Idle? && s.pcs[u].job == job && !job.op.Touch?
    && o in s.heap && s.heap[o] == Trace(map[], 0, 0, term, true, {}, {}, Private(t))
  }

  /** First somebody opens a window for the model that `t` is to offer `o` for. */
  lemma AnotherWindow(a: State, t: Thread, o: Obj, term: Term, u: Thread, job: Job, idle: Thread)
    returns (steps: seq<Step>, s: State)
    requires Shared(a, t, o, term, u, job) && idle in a.pcs && a.pcs[idle].Idle?
    ensures Run(a, steps, s) && Shared(s, t, o, term, u, job) && s.pcs[u] == a.pcs[u] && s.pcs[t] == a.pcs[t]
    ensures s.pcs[t].job.model in s.live && forall x :: x in a.heap ==> x in s.heap && s.heap[x] == a.heap[x]
  {
    if a.pcs[t].job.model in a.live {
      steps, s := [], a;
    } else {
      var call := Above(a.calls);
      var obj := Above(a.heap.Keys);
      var other := Above(a.fate.Keys);
      steps, s := OpensWindow(a, [], a, idle, Job(call, a.pcs[t].job.model, Touch), obj, other);
    }
  }

  /** Then the caller that still has `o` gets to hold it. */
  lemma GetsToHold(a: State, steps: seq<Step>, b: State, t: Thread, o: Obj, term: Term, u: Thread, job: Job)
    returns (more: seq<Step>, s: State)
    requires Run(a, steps, b) && Shared(b, t, o, term, u, job) && b.pcs[t].job.model in b.live
    requires CountsOn(b.pcs[u], o) && !b.pcs[u].Fresh? && !b.pcs[u].Inserted? && !b.pcs[u].Bumping?
    requires b.pcs[u].Surplus? ==> b.pcs[u].mine != o && b.pcs[u].mine in b.heap && b.heap[b.pcs[u].mine].Unlocked()
    ensures Run(a, more, s) && Shared(s, t, o, term, u, job) && s.pcs[t].job.model in s.live && s.pcs[u] == Holding(job, o)
  {
    if b.pcs[u].Stored? {
      RunThen(a, steps, b, Increment(u));
      more, s := steps + [Increment(u)], Apply(b, Increment(u));
    } else if b.pcs[u].Surplus? {
      RunThen(a, steps, b, RecycleOwn(u));
      more, s := steps + [RecycleOwn(u)], Apply(b, RecycleOwn(u));
    } else {
      more, s := steps, b;
    }
  }

  /** `t` finds the other window in place and recycles its own. */
  lemma GivesUp(a: State, steps: seq<Step>, b: State, t: Thread, o: Obj, term: Term, c: Call)
    returns (more: seq<Step>, s: State)
    requires Run(a, steps, b) && t in b.pcs && b.pcs[t].Fresh? && b.pcs[t].mine == o && b.pcs[t].job.model in b.live
    requires o in b.heap && b.heap[o].Unlocked() && b.heap[o].term == term
    requires c in b.returned && c in b.counted && b.counted[c].term == term
    ensures Run(a, more, s) && Miscounts(s, c)
  {
    var mid := Apply(b, LoadOrStore(t));
    RunThen(a, steps, b, LoadOrStore(t));
    RunThen(a, steps + [LoadOrStore(t)], mid, RecycleOwn(t));
    more, s := steps + [LoadOrStore(t)] + [RecycleOwn(t)], Apply(mid, RecycleOwn(t));
    assert s.fate[term] == Discarded;
  }

  /** The holder counts its call on the trace and returns; then the trace is given up. */
  lemma CountsAndLoses(a: State, steps: seq<Step>, b: State, t: Thread, o: Obj, term: Term, u: Thread, job: Job)
    returns (more: seq<Step>, s: State)
    requires Run(a, steps, b) && Shared(b, t, o, term, u, job) && b.pcs[t].job.model in b.live
    requires b.pcs[u] == Holding(job, o)
    ensures Run(a, more, s) && Miscounts(s, job.call)
  {
    var mid := Apply(b, Attempt(u));
    RunThen(a, steps, b, Attempt(u));
    more := steps + [Attempt(u)];
    if job.op.Done? {
      RunThen(a, more, mid, FinishInsert(u));
      more, mid := more + [FinishInsert(u)], Apply(mid, FinishInsert(u));
    }
    more, s := GivesUp(a, more, mid, t, o, term, job.call);
  }

  /** Who can hold a pooled trace, and that its own spare trace is another one. */
  lemma HoldersOfPooled(s: State, u: Thread, o: Obj)
    requires Inv(s) && u in s.pcs && s.pcs[u].Holds(o) && o in s.heap && s.heap[o].home.Pooled?
    ensures s.pcs[u].Stored? || s.pcs[u].Holding? || (s.pcs[u].Surplus? && s.pcs[u].got == o)
    ensures s.pcs[u].Surplus? ==>
      s.pcs[u].mine != o && s.pcs[u].mine in s.heap && s.heap[s.pcs[u].mine].Unlocked()
  {
    assert MayHold(s.heap, u, s.pcs[u]);
    if s.pcs[u].Surplus? { assert TraceOk(s.heap[s.pcs[u].mine]); }
  }

  /** Reissuing a trace somebody will still count on can lose that count. */
  lemma ReissueLosesCall(s: State, t: Thread, o: Obj, term: Term, u: Thread, idle: Thread)
    requires Inv(s) && t in s.pcs && s.pcs[t].Fetching? && o in s.heap && s.heap[o].home.Pooled? && term !in s.fate
    requires u in s.pcs && CountsOn(s.pcs[u], o) && idle in s.pcs && s.pcs[idle].Idle?
    ensures CanMiscount(FetchFresh(s, t, s.pcs[t].job, o, term))
  {
    var job := s.pcs[u].job;
    var a := FetchFresh(s, t, s.pcs[t].job, o, term);
    HoldersOfPooled(s, u, o);
    ReissuedEmpty(s.heap, t, o, term);
    var steps, b := AnotherWindow(a, t, o, term, u, job, idle);
    steps, b := GetsToHold(a, steps, b, t, o, term, u, job);
    var s';
    steps, s' := CountsAndLoses(a, steps, b, t, o, term, u, job);
    assert Miscounts(s', job.call);
  }

  /**
   * What the pool must not do, exactly: in every reachable state, reissuing a pooled trace can make a returned call
   * go uncounted if and only if some caller that holds the trace still has an Add or a Done to count on it.
   * (One more goroutine must be free to make a request.)
   */
  lemma ReissueExact(s0: State, steps: seq<Step>, s: State, t: Thread, o: Obj, term: Term, idle: Thread)
    requires Initial(s0) && Run(s0, steps, s) && t in s.pcs && s.pcs[t].Fetching?
    requires o in s.heap && s.heap[o].home.Pooled? && term !in s.fate && idle in s.pcs && s.pcs[idle].Idle?
    ensures CanMiscount(FetchFresh(s, t, s.pcs[t].job, o, term)) <==> exists u :: u in s.pcs && CountsOn(s.pcs[u], o)
  {
    InitialInv(s0);
    RunKeeps(s0, steps, s);
    if u :| u in s.pcs && CountsOn(s.pcs[u], o) {
      ReissueLosesCall(s, t, o, term, u, idle);
    } else {
      var a := Apply(s, FromPool(t, o, term));
      StepKeeps(s, FromPool(t, o, term));
      forall more, s', c | Run(a, more, s') ensures !Miscounts(s', c) {
        RunKeeps(a, more, s');
      }
    }
  }

  /**
   * The situation arises: for every model a run from the start publishes and pools a trace between a caller's fetch
   * and its attempt, so that its reissue to another caller, under whatever term, could lose the first one's request.
   */
  lemma PooledAndHeldReached(m: Model) returns (s0: State, steps: seq<Step>, s: State)
    ensures Initial(s0) && Run(s0, steps, s) && 0 in s.heap && s.heap[0].home.Pooled?
    ensures s.pcs == map[0 := Holding(Job(0, m, Add), 0), 1 := Idle, 2 := Fetching(Job(1, m, Add))]
    ensures forall term :: term !in s.fate ==> CanMiscount(FetchFresh(s, 2, Job(1, m, Add), 0, term))
  {
    var first;
    s0, steps, first := PublishedWhileHeld(m);
    var last := Start(2, Job(1, m, Add));
    RunThen(s0, steps, first, last);
    steps, s := steps + [last], Apply(first, last);
    assert CountsOn(s.pcs[0], 0);
    forall term | term !in s.fate ensures CanMiscount(FetchFresh(s, 2, Job(1, m, Add), 0, term)) {
      ReissueExact(s0, steps, s, 2, 0, term, 1);
    }
  }
}
