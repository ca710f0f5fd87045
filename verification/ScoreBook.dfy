/**
 * The two-lock protocol shared by the LMETRIC and MOONCAKE score books.
 *
 * A book holds an accumulator per pod and a record per request, each behind its own mutex. A scorer
 * takes the accumulator lock, picks a pod, raises its accumulator and, still holding that lock, takes
 * the record lock to write the record. A completion or a rollback takes the record lock to remove the
 * record, lets it go, and only then takes the accumulator lock to lower the accumulator. Every lock
 * acquisition and every critical section is one step; goroutines interleave freely.
 */
module ScoreBook {
  import opened Collections

  type Pod = string
  type Request = string
  type Thread = nat

  /** What one request charged, and to which pod. MOONCAKE always charges 1. */
  datatype Entry = Entry(pod: Pod, amount: nat)

  type Load = map<Pod, int>

  /** The requests each pod is running. */
  type Batches = map<Pod, nat>

  ghost predicate NonNegative(load: Load) { forall p :: Get(load, p) >= 0 }

  function Raise(load: Load, e: Entry): Load {
    load[e.pod := Get(load, e.pod) + e.amount]
  }

  /** Subtraction with the source's clamp at zero. */
  function Lower(load: Load, e: Entry): Load {
    var v := Get(load, e.pod) - e.amount;
    load[e.pod := if v < 0 then 0 else v]
  }

  /** The accumulator less the amount, or nothing if it is not that much. */
  function LessBy(load: Load, p: Pod, amount: nat): Load {
    load[p := if Get(load, p) >= amount then Get(load, p) - amount else 0]
  }

  lemma LowerIsLess(load: Load, e: Entry)
    ensures Lower(load, e) == LessBy(load, e.pod, e.amount)
  {
  }

  datatype Pc =
    | Idle
    | Charged(request: Request, entry: Entry)   // holds the accumulator lock, has raised it
    | Recording(request: Request, entry: Entry) // holds both locks
    | Reading(request: Request, skipZero: bool) // holds the record lock
    | Taken(request: Request, entry: Entry)     // between its two critical sections, no lock
    | Lowering(request: Request, entry: Entry)  // holds the accumulator lock
  {
    predicate HoldsLoad() { Charged? || Recording? || Lowering? }
    predicate HoldsRecords() { Recording? || Reading? }

    /** What this goroutine has charged to `p` without a record standing for it. */
    function Carries(p: Pod): nat {
      if (Charged? || Recording? || Taken? || Lowering?) && entry.pod == p then entry.amount else 0
    }

    function Remaining(): nat {
      match this
      case Idle => 0
      case Charged(_, _) => 2
      case Recording(_, _) => 1
      case Reading(_, _) => 3
      case Taken(_, _) => 2
      case Lowering(_, _) => 1
    }
  }

  /** `lost` is a history variable: records overwritten or cleaned up while their charge still stood. */
  datatype State = State(
    load: Load,
    records: map<Request, Entry>,
    loadLock: Option<Thread>,
    recordLock: Option<Thread>,
    pcs: map<Thread, Pc>,
    lost: seq<Entry>)

  datatype Step =
    | Charge(t: Thread, request: Request, entry: Entry)
    | LockForRecord(t: Thread)
    | Record(t: Thread, request: Request, entry: Entry)
    | LockForTake(t: Thread, request: Request, skipZero: bool)
    | Take(t: Thread, request: Request)
    | LockForLower(t: Thread)
    | LowerLoad(t: Thread)
    | Cleanup(t: Thread, request: Request)
  {
    /** The steps that only carry a call already begun to its end. */
    predicate Finishing() { !Charge? && !LockForTake? && !Cleanup? }
  }

  predicate Enabled(s: State, step: Step) {
    step.t in s.pcs &&
    var pc := s.pcs[step.t];
    match step
    case Charge(_, _, _) => pc.Idle? && s.loadLock.None?
    case LockForRecord(_) => pc.Charged? && s.recordLock.None?
    case Record(_, request, entry) => pc == Recording(request, entry)
    case LockForTake(_, _, _) => pc.Idle? && s.recordLock.None?
    case Take(_, request) => pc.Reading? && pc.request == request
    case LockForLower(_) => pc.Taken? && s.loadLock.None?
    case LowerLoad(_) => pc.Lowering?
    case Cleanup(_, _) => pc.Idle? && s.recordLock.None?
  }

  /** The entry a write to or a deletion of `request` throws away. */
  function Dropped(s: State, request: Request): seq<Entry> {
    if request in s.records then [s.records[request]] else []
  }

  function Apply(s: State, step: Step): State
    requires Enabled(s, step)
  {
    var t := step.t;
    var pc := s.pcs[t];
    match step
    case Charge(_, request, entry) =>
      s.(load := Raise(s.load, entry), loadLock := Some(t), pcs := s.pcs[t := Charged(request, entry)])
    case LockForRecord(_) =>
      s.(recordLock := Some(t), pcs := s.pcs[t := Recording(pc.request, pc.entry)])
    case Record(_, request, entry) =>
      s.(records := s.records[request := entry], lost := s.lost + Dropped(s, request),
         loadLock := None, recordLock := None, pcs := s.pcs[t := Idle])
    case LockForTake(_, request, skipZero) =>
      s.(recordLock := Some(t), pcs := s.pcs[t := Reading(request, skipZero)])
    case Take(_, request) =>
      if request !in s.records then
        s.(recordLock := None, pcs := s.pcs[t := Idle])
      else
        var e := s.records[request];
        var next := if pc.skipZero && e.amount == 0 then Idle else Taken(request, e);
        s.(records := s.records - {request}, recordLock := None, pcs := s.pcs[t := next])
    case LockForLower(_) =>
      s.(loadLock := Some(t), pcs := s.pcs[t := Lowering(pc.request, pc.entry)])
    case LowerLoad(_) =>
      s.(load := Lower(s.load, pc.entry), loadLock := None, pcs := s.pcs[t := Idle])
    case Cleanup(_, request) =>
      s.(records := s.records - {request}, lost := s.lost + Dropped(s, request))
  }

  // --- accounting -------------------------------------------------------------------------------

  function Share(e: Entry, p: Pod): nat { if e.pod == p then e.amount else 0 }

  function RecordShares(records: map<Request, Entry>, p: Pod): map<Request, int> {
    map r | r in records :: Share(records[r], p)
  }

  function CarriedShares(pcs: map<Thread, Pc>, p: Pod): map<Thread, int> {
    map t | t in pcs :: pcs[t].Carries(p)
  }

  /** What the outstanding records charge to `p`. */
  ghost function Recorded(s: State, p: Pod): int { Sum(RecordShares(s.records, p)) }

  /** What goroutines inside a call have charged to `p` without a record. */
  ghost function InFlight(s: State, p: Pod): int { Sum(CarriedShares(s.pcs, p)) }

  function Lost(lost: seq<Entry>, p: Pod): nat {
    if lost == [] then 0 else Share(lost[0], p) + Lost(lost[1..], p)
  }

  ghost predicate Balanced(s: State, p: Pod) {
    Get(s.load, p) == Recorded(s, p) + InFlight(s, p) + Lost(s.lost, p)
  }

  ghost predicate LocksHeld(s: State) {
    && (forall t :: t in s.pcs ==> (s.pcs[t].HoldsLoad() <==> s.loadLock == Some(t)))
    && (forall t :: t in s.pcs ==> (s.pcs[t].HoldsRecords() <==> s.recordLock == Some(t)))
    && (s.loadLock.Some? ==> s.loadLock.value in s.pcs)
    && (s.recordLock.Some? ==> s.recordLock.value in s.pcs)
  }

  ghost predicate Inv(s: State) {
    LocksHeld(s) && forall p :: Balanced(s, p)
  }

  predicate Initial(s: State) {
    && s.load == map[] && s.records == map[] && s.lost == []
    && s.loadLock.None? && s.recordLock.None?
    && forall t :: t in s.pcs ==> s.pcs[t].Idle?
  }

  lemma {:induction false} AllZero<K>(m: map<K, int>)
    requires forall k :: k in m ==> m[k] == 0
    ensures Sum(m) == 0
    decreases |m|
  {
    if m != map[] {
      var k :| k in m;
      SumSplit(m, k);
      assert (m - {k}).Keys == m.Keys - {k};
      AllZero(m - {k});
    }
  }

  lemma InitialInv(s: State)
    requires Initial(s)
    ensures Inv(s)
  {
    forall p ensures Balanced(s, p) {
      AllZero(CarriedShares(s.pcs, p));
      assert RecordShares(s.records, p) == map[];
    }
  }

  lemma {:induction false} LostAppend(a: seq<Entry>, b: seq<Entry>, p: Pod)
    ensures Lost(a + b, p) == Lost(a, p) + Lost(b, p)
  {
    if a == [] {
      assert a + b == b;
    } else {
      assert (a + b)[1..] == a[1..] + b;
      LostAppend(a[1..], b, p);
    }
  }

  lemma MoveThread(s: State, t: Thread, pc: Pc, p: Pod)
    requires t in s.pcs
    ensures Sum(CarriedShares(s.pcs[t := pc], p)) == InFlight(s, p) - s.pcs[t].Carries(p) + pc.Carries(p)
  {
    SumUpdate(CarriedShares(s.pcs, p), t, pc.Carries(p));
    assert CarriedShares(s.pcs[t := pc], p) == CarriedShares(s.pcs, p)[t := pc.Carries(p)];
  }

  /** Nothing is lost by a deletion that somebody carries, and all of it by one that nobody does. */
  lemma DropRecord(s: State, r: Request, p: Pod)
    ensures Sum(RecordShares(s.records - {r}, p)) == Recorded(s, p) - Lost(Dropped(s, r), p)
  {
    SumRemove(RecordShares(s.records, p), r);
    assert RecordShares(s.records - {r}, p) == RecordShares(s.records, p) - {r};
  }

  lemma WriteRecord(s: State, r: Request, e: Entry, p: Pod)
    ensures Sum(RecordShares(s.records[r := e], p)) == Recorded(s, p) - Lost(Dropped(s, r), p) + Share(e, p)
  {
    SumUpdate(RecordShares(s.records, p), r, Share(e, p));
    assert RecordShares(s.records[r := e], p) == RecordShares(s.records, p)[r := Share(e, p)];
  }

  lemma CarriedIsCovered(s: State, t: Thread, p: Pod)
    requires Balanced(s, p) && t in s.pcs
    ensures s.pcs[t].Carries(p) <= Get(s.load, p)
  {
    SumNonNegative(CarriedShares(s.pcs, p));
    SumNonNegative(RecordShares(s.records, p));
    assert CarriedShares(s.pcs, p)[t] == s.pcs[t].Carries(p);
  }

  /** Both clamps are dead code: a lowering always finds at least what it takes away. */
  lemma ClampUnreachable(s: State, t: Thread)
    requires Inv(s) && t in s.pcs && s.pcs[t].Lowering?
    ensures var e := s.pcs[t].entry;
      && Get(s.load, e.pod) >= e.amount
      && Lower(s.load, e) == s.load[e.pod := Get(s.load, e.pod) - e.amount]
  {
    var e := s.pcs[t].entry;
    assert Balanced(s, e.pod);
    CarriedIsCovered(s, t, e.pod);
  }

  lemma BalanceAfterRecord(s: State, step: Step, p: Pod)
    requires step.Record? && Balanced(s, p) && Enabled(s, step)
    ensures Balanced(Apply(s, step), p)
  {
    MoveThread(s, step.t, Idle, p);
    WriteRecord(s, step.request, step.entry, p);
    LostAppend(s.lost, Dropped(s, step.request), p);
  }

  lemma BalanceAfterTake(s: State, step: Step, p: Pod)
    requires step.Take? && Balanced(s, p) && Enabled(s, step)
    ensures Balanced(Apply(s, step), p)
  {
    MoveThread(s, step.t, Apply(s, step).pcs[step.t], p);
    DropRecord(s, step.request, p);
  }

  lemma BalanceAfterLower(s: State, t: Thread, p: Pod)
    requires Inv(s) && Enabled(s, LowerLoad(t))
    ensures Balanced(Apply(s, LowerLoad(t)), p)
  {
    assert Balanced(s, p);
    MoveThread(s, t, Idle, p);
    ClampUnreachable(s, t);
  }

  lemma BalanceKept(s: State, step: Step, p: Pod)
    requires Inv(s) && Enabled(s, step)
    ensures Balanced(Apply(s, step), p)
  {
    assert Balanced(s, p);
    match step
    case Record(_, _, _) => BalanceAfterRecord(s, step, p);
    case Take(_, _) => BalanceAfterTake(s, step, p);
    case LowerLoad(t) => BalanceAfterLower(s, t, p);
    case Cleanup(_, request) =>
      DropRecord(s, request, p);
      LostAppend(s.lost, Dropped(s, request), p);
    case _ =>
      MoveThread(s, step.t, Apply(s, step).pcs[step.t], p);
  }

  lemma InvKept(s: State, step: Step)
    requires Inv(s) && Enabled(s, step)
    ensures Inv(Apply(s, step))
  {
    forall p ensures Balanced(Apply(s, step), p) {
      BalanceKept(s, step, p);
    }
  }

  // --- whole runs -------------------------------------------------------------------------------

  ghost predicate Run(s: State, steps: seq<Step>, s': State)
    decreases |steps|
  {
    if steps == [] then s' == s
    else Enabled(s, steps[0]) && Run(Apply(s, steps[0]), steps[1..], s')
  }

  lemma {:induction false} RunInv(s: State, steps: seq<Step>, s': State)
    requires Inv(s) && Run(s, steps, s')
    ensures Inv(s')
    decreases |steps|
  {
    if steps != [] {
      InvKept(s, steps[0]);
      RunInv(Apply(s, steps[0]), steps[1..], s');
    }
  }

  /**
   * Accounting under every interleaving: an accumulator is exactly what its outstanding records, the
   * goroutines inside a call and the thrown-away records charge to it; so it never goes negative.
   */
  lemma Accounting(s0: State, steps: seq<Step>, s: State, p: Pod)
    requires Initial(s0) && Run(s0, steps, s)
    ensures Get(s.load, p) == Recorded(s, p) + InFlight(s, p) + Lost(s.lost, p)
    ensures Get(s.load, p) >= 0
  {
    InitialInv(s0);
    RunInv(s0, steps, s);
    assert Balanced(s, p);
    SumNonNegative(CarriedShares(s.pcs, p));
    SumNonNegative(RecordShares(s.records, p));
  }

  // --- what is stranded -------------------------------------------------------------------------

  lemma {:induction false} RunSplit(s: State, steps: seq<Step>, s': State)
    returns (front: seq<Step>, mid: State, last: Step)
    requires Run(s, steps, s') && steps != []
    ensures steps == front + [last] && Run(s, front, mid) && Enabled(mid, last) && s' == Apply(mid, last)
    decreases |steps|
  {
    if |steps| == 1 {
      front, mid, last := [], s, steps[0];
    } else {
      var rest;
      rest, mid, last := RunSplit(Apply(s, steps[0]), steps[1..], s');
      front := [steps[0]] + rest;
      assert front[1..] == rest;
    }
  }

  /** The step writes, takes or cleans up the record of `r`. */
  predicate Touches(step: Step, r: Request) { (step.Record? || step.Take? || step.Cleanup?) && step.request == r }

  /** Step i is the last to touch the record of its request, and wrote it. */
  predicate Stands(steps: seq<Step>, i: nat) {
    && i < |steps| && steps[i].Record?
    && forall k :: i < k < |steps| ==> !Touches(steps[k], steps[i].request)
  }

  /** Step j overwrites or cleans up what step i recorded, before any take. */
  predicate Strands(steps: seq<Step>, i: nat, j: nat) {
    && i < j < |steps| && Stands(steps[..j], i)
    && (steps[j].Record? || steps[j].Cleanup?) && steps[j].request == steps[i].request
  }

  /** Every positive amount recorded is taken before its record is written again or cleaned up. */
  ghost predicate Settled(steps: seq<Step>) {
    forall i: nat, j: nat :: Strands(steps, i, j) ==> steps[i].entry.amount == 0
  }

  lemma StandsAfter(steps: seq<Step>, step: Step, i: nat)
    ensures Stands(steps + [step], i) <==>
            (i == |steps| && step.Record?) || (Stands(steps, i) && !Touches(step, steps[i].request))
  {
    var after := steps + [step];
    if i < |steps| && steps[i].Record? {
      assert Touches(after[|steps|], steps[i].request) <==> Touches(step, steps[i].request);
      assert forall k :: i < k < |steps| ==> after[k] == steps[k];
    }
  }

  /** The records of a reachable state are the writes that stand. */
  ghost predicate RecordsStand(steps: seq<Step>, records: map<Request, Entry>) {
    && (forall i: nat :: Stands(steps, i) ==>
          steps[i].request in records && records[steps[i].request] == steps[i].entry)
    && (forall r :: r in records ==> exists i: nat :: Stands(steps, i) && steps[i].request == r)
  }

  lemma StandingRecord(steps: seq<Step>, records: map<Request, Entry>, r: Request) returns (i: nat)
    requires RecordsStand(steps, records) && r in records
    ensures Stands(steps, i) && steps[i].request == r && steps[i].entry == records[r]
  {
    i :| Stands(steps, i) && steps[i].request == r;
  }

  lemma RecordsStandAfter(steps: seq<Step>, s: State, step: Step)
    requires RecordsStand(steps, s.records) && Enabled(s, step)
    ensures RecordsStand(steps + [step], Apply(s, step).records)
  {
    var after, records := steps + [step], Apply(s, step).records;
    forall i: nat | Stands(after, i)
      ensures after[i].request in records && records[after[i].request] == after[i].entry
    {
      StandsAfter(steps, step, i);
    }
    forall r | r in records ensures exists i: nat :: Stands(after, i) && after[i].request == r {
      if step.Record? && r == step.request {
        StandsAfter(steps, step, |steps|);
        assert after[|steps|].request == r;
      } else {
        var i := StandingRecord(steps, s.records, r);
        StandsAfter(steps, step, i);
        assert after[i].request == r;
      }
    }
  }

  lemma {:induction false} RunStands(s0: State, steps: seq<Step>, s: State)
    requires Initial(s0) && Run(s0, steps, s)
    ensures RecordsStand(steps, s.records)
    decreases |steps|
  {
    if steps != [] {
      var front, mid, last := RunSplit(s0, steps, s);
      RunStands(s0, front, mid);
      RecordsStandAfter(front, mid, last);
    }
  }

  /** Nothing is stranded on any pod. */
  ghost predicate NoneLost(lost: seq<Entry>) { forall p :: Lost(lost, p) == 0 }

  lemma NoneLostAfter(lost: seq<Entry>, e: Entry)
    ensures NoneLost(lost + [e]) <==> NoneLost(lost) && e.amount == 0
  {
    forall p ensures Lost(lost + [e], p) == Lost(lost, p) + Share(e, p) {
      LostAppend(lost, [e], p);
      assert Lost([e], p) == Share(e, p);
    }
    if NoneLost(lost + [e]) { assert Lost(lost + [e], e.pod) == 0; }
  }

  lemma StrandsPrefix(steps: seq<Step>, step: Step, i: nat, j: nat)
    requires j < |steps|
    ensures Strands(steps + [step], i, j) <==> Strands(steps, i, j)
  {
    assert (steps + [step])[..j] == steps[..j];
  }

  /** The step throws away no record, or one of no amount. */
  predicate Spares(records: map<Request, Entry>, step: Step) {
    (step.Record? || step.Cleanup?) && step.request in records ==> records[step.request].amount == 0
  }

  lemma SettledAfter(steps: seq<Step>, s: State, step: Step)
    requires RecordsStand(steps, s.records) && Enabled(s, step)
    ensures Settled(steps + [step]) <==> Settled(steps) && Spares(s.records, step)
  {
    var after, n := steps + [step], |steps|;
    assert after[..n] == steps;
    var drops := (step.Record? || step.Cleanup?) && step.request in s.records;
    if Settled(after) {
      forall i: nat, j: nat | Strands(steps, i, j) ensures steps[i].entry.amount == 0 {
        StrandsPrefix(steps, step, i, j);
        assert after[i].entry.amount == 0;
      }
      if drops {
        var i := StandingRecord(steps, s.records, step.request);
        assert Strands(after, i, n);
        assert after[i].entry.amount == 0;
      }
    }
    if Settled(steps) && Spares(s.records, step) {
      forall i: nat, j: nat | Strands(after, i, j) ensures after[i].entry.amount == 0 {
        if j < n { StrandsPrefix(steps, step, i, j); assert steps[i].entry.amount == 0; }
      }
    }
  }

  lemma LossAfter(s: State, step: Step)
    requires Enabled(s, step)
    ensures NoneLost(Apply(s, step).lost) <==> NoneLost(s.lost) && Spares(s.records, step)
  {
    if (step.Record? || step.Cleanup?) && step.request in s.records {
      NoneLostAfter(s.lost, s.records[step.request]);
    } else {
      assert s.lost + [] == s.lost;
    }
  }

  /**
   * Nothing is stranded on any pod if and only if every positive amount recorded is taken before its
   * record is written again or cleaned up: a condition on the order of the calls alone.
   */
  lemma {:induction false} NothingLost(s0: State, steps: seq<Step>, s: State)
    requires Initial(s0) && Run(s0, steps, s)
    ensures NoneLost(s.lost) <==> Settled(steps)
    decreases |steps|
  {
    if steps != [] {
      var front, mid, last := RunSplit(s0, steps, s);
      NothingLost(s0, front, mid);
      RunStands(s0, front, mid);
      SettledAfter(front, mid, last);
      LossAfter(mid, last);
    }
  }

  /** What is stranded stays. */
  lemma {:induction false} StrandedStays(s: State, steps: seq<Step>, s': State, p: Pod)
    requires Run(s, steps, s')
    ensures Lost(s'.lost, p) >= Lost(s.lost, p)
    decreases |steps|
  {
    if steps != [] {
      var mid := Apply(s, steps[0]);
      assert mid.lost == s.lost + mid.lost[|s.lost|..];
      LostAppend(s.lost, mid.lost[|s.lost|..], p);
      StrandedStays(mid, steps[1..], s', p);
    }
  }

  // --- what a caller can promise ----------------------------------------------------------------

  predicate FreshIds(steps: seq<Step>) {
    forall i, j :: 0 <= i < j < |steps| && steps[i].Charge? && steps[j].Charge? ==> steps[i].request != steps[j].request
  }

  /** Between a record and a later clean-up of its request there is a take. */
  ghost predicate CleanedAfterTake(steps: seq<Step>) {
    forall i, j :: 0 <= i < j < |steps| && steps[i].Record? && steps[j].Cleanup? && steps[i].request == steps[j].request ==>
      exists k :: i < k < j && steps[k].Take? && steps[k].request == steps[i].request
  }

  predicate Writing(pc: Pc, r: Request) { (pc.Charged? || pc.Recording?) && pc.request == r }

  ghost predicate ChargedIn(steps: seq<Step>, r: Request) { exists i :: 0 <= i < |steps| && steps[i].Charge? && steps[i].request == r }

  ghost predicate RecordedIn(steps: seq<Step>, r: Request) { exists i :: 0 <= i < |steps| && steps[i].Record? && steps[i].request == r }

  /** A request being written was charged, is being written once, and has not been recorded before. */
  ghost predicate WrittenOnce(steps: seq<Step>, pcs: map<Thread, Pc>, r: Request) {
    && (RecordedIn(steps, r) ==> ChargedIn(steps, r))
    && (forall t :: t in pcs && Writing(pcs[t], r) ==> ChargedIn(steps, r) && !RecordedIn(steps, r))
    && (forall t, u :: t in pcs && u in pcs && Writing(pcs[t], r) && Writing(pcs[u], r) ==> t == u)
  }

  lemma InAfter(steps: seq<Step>, step: Step, r: Request)
    ensures ChargedIn(steps + [step], r) <==> ChargedIn(steps, r) || (step.Charge? && step.request == r)
    ensures RecordedIn(steps + [step], r) <==> RecordedIn(steps, r) || (step.Record? && step.request == r)
  {
    var after := steps + [step];
    assert after[|steps|] == step;
    assert forall i :: 0 <= i < |steps| ==> after[i] == steps[i];
  }

  lemma WrittenOnceAfter(steps: seq<Step>, s: State, step: Step, r: Request)
    requires WrittenOnce(steps, s.pcs, r) && Enabled(s, step) && FreshIds(steps + [step])
    ensures WrittenOnce(steps + [step], Apply(s, step).pcs, r)
  {
    InAfter(steps, step, r);
    if step.Charge? { NewlyCharged(steps, step); }
  }

  lemma NewlyCharged(steps: seq<Step>, step: Step)
    requires FreshIds(steps + [step]) && step.Charge?
    ensures !ChargedIn(steps, step.request)
  {
    var after := steps + [step];
    assert after[|steps|] == step && forall i :: 0 <= i < |steps| ==> after[i] == steps[i];
  }

  lemma {:induction false} RunWritesOnce(s0: State, steps: seq<Step>, s: State, r: Request)
    requires Initial(s0) && Run(s0, steps, s) && FreshIds(steps)
    ensures WrittenOnce(steps, s.pcs, r)
    decreases |steps|
  {
    if steps != [] {
      var front, mid, last := RunSplit(s0, steps, s);
      assert forall i :: 0 <= i < |front| ==> front[i] == steps[i];
      RunWritesOnce(s0, front, mid, r);
      WrittenOnceAfter(front, mid, last, r);
    }
  }

  lemma {:induction false} RunPrefix(s: State, steps: seq<Step>, s': State, n: nat) returns (mid: State)
    requires Run(s, steps, s') && n <= |steps|
    ensures Run(s, steps[..n], mid) && (n < |steps| ==> Enabled(mid, steps[n]))
    decreases |steps|
  {
    if n == 0 {
      mid := s;
    } else {
      mid := RunPrefix(Apply(s, steps[0]), steps[1..], s', n - 1);
      assert steps[1..][..n - 1] == steps[..n][1..];
    }
  }

  predicate Replaces(steps: seq<Step>, i: nat, j: nat) {
    && i < j < |steps| && steps[i].Record? && (steps[j].Record? || steps[j].Cleanup?)
    && steps[j].request == steps[i].request
  }

  lemma TakenFirst(steps: seq<Step>, i: nat, j: nat, k: nat)
    requires Replaces(steps, i, j) && i < k < j && Touches(steps[k], steps[i].request)
    ensures !Strands(steps, i, j)
  {
    assert steps[..j][k] == steps[k] && steps[..j][i] == steps[i];
  }

  /** With fresh request ids and clean-ups only after the take, nothing is ever stranded. */
  lemma FreshIdsSettle(s0: State, steps: seq<Step>, s: State)
    requires Initial(s0) && Run(s0, steps, s) && FreshIds(steps) && CleanedAfterTake(steps)
    ensures Settled(steps) && NoneLost(s.lost)
  {
    forall i: nat, j: nat ensures !Strands(steps, i, j) {
      if Replaces(steps, i, j) {
        NotStranded(s0, steps, s, i, j);
        var k :| i < k < j && Touches(steps[k], steps[i].request);
        TakenFirst(steps, i, j, k);
      } else {
        assert i < j < |steps| ==> steps[..j][i] == steps[i];
      }
    }
    NothingLost(s0, steps, s);
  }

  lemma NotStranded(s0: State, steps: seq<Step>, s: State, i: nat, j: nat)
    requires Initial(s0) && Run(s0, steps, s) && FreshIds(steps) && CleanedAfterTake(steps)
    requires Replaces(steps, i, j)
    ensures exists k :: i < k < j && Touches(steps[k], steps[i].request)
  {
    if steps[j].Record? {
      var mid := RunPrefix(s0, steps, s, j);
      assert steps[..j][i] == steps[i];
      assert RecordedIn(steps[..j], steps[j].request);
      assert Writing(mid.pcs[steps[j].t], steps[j].request);
      RunWritesOnce(s0, steps[..j], mid, steps[j].request);
    } else {
      var k :| i < k < j && steps[k].Take? && steps[k].request == steps[i].request;
      assert Touches(steps[k], steps[i].request);
    }
  }

  /** Cleaning up before the decrement: the calls are over, no record is left, and the charge stands. */
  lemma EarlyCleanupStrands(amount: nat) returns (s0: State, steps: seq<Step>, s: State)
    requires amount > 0
    ensures Initial(s0) && Run(s0, steps, s) && FreshIds(steps)
    ensures (forall t :: t in s.pcs ==> s.pcs[t].Idle?) && s.records == map[] && Get(s.load, "a") == amount
  {
    var e, pcs := Entry("a", amount), map[0 := Idle];
    s0 := State(map[], map[], None, None, pcs, []);
    var s1 := Apply(s0, Charge(0, "r", e));
    var s2 := Apply(s1, LockForRecord(0));
    var s3 := Apply(s2, Record(0, "r", e));
    s := Apply(s3, Cleanup(0, "r"));
    var last := [Cleanup(0, "r")];
    assert last[1..] == [] && Run(s3, last, s);
    var from2 := [Record(0, "r", e)] + last;
    assert from2[1..] == last && Run(s2, from2, s);
    var from1 := [LockForRecord(0)] + from2;
    assert from1[1..] == from2 && Run(s1, from1, s);
    steps := [Charge(0, "r", e)] + from1;
    assert steps[1..] == from1;
  }

  /** Every mention of `r` in the state carries the entry `e`. */
  ghost predicate Speaks(s: State, r: Request, e: Entry) {
    && (r in s.records ==> s.records[r] == e)
    && forall t :: t in s.pcs && !s.pcs[t].Idle? && !s.pcs[t].Reading? && s.pcs[t].request == r ==> s.pcs[t].entry == e
  }

  /** Request `r` is scored with no other outcome than `e`. */
  predicate OnlyCharge(steps: seq<Step>, r: Request, e: Entry) {
    forall i :: 0 <= i < |steps| && steps[i].Charge? && steps[i].request == r ==> steps[i].entry == e
  }

  lemma {:induction false} RunSpeaks(s: State, steps: seq<Step>, s': State, r: Request, e: Entry)
    requires Speaks(s, r, e) && OnlyCharge(steps, r, e) && Run(s, steps, s')
    ensures Speaks(s', r, e)
    decreases |steps|
  {
    if steps != [] {
      assert Speaks(Apply(s, steps[0]), r, e);
      RunSpeaks(Apply(s, steps[0]), steps[1..], s', r, e);
    }
  }

  /**
   * A completion or rollback undoes its own scoring and nothing else: whatever every other goroutine
   * did since request `r` was charged `e`, lowering on its behalf takes exactly `e.amount` off exactly
   * `e.pod`.
   */
  lemma RollbackUndoesCharge(s0: State, steps: seq<Step>, s: State, t: Thread, r: Request, e: Entry)
    requires Initial(s0) && Run(s0, steps, s) && OnlyCharge(steps, r, e)
    requires t in s.pcs && s.pcs[t].Lowering? && s.pcs[t].request == r
    ensures forall q :: Get(Apply(s, LowerLoad(t)).load, q) == Get(s.load, q) - Share(e, q)
  {
    InitialInv(s0);
    RunInv(s0, steps, s);
    RunSpeaks(s0, steps, s, r, e);
    ClampUnreachable(s, t);
  }

  // --- no deadlock ------------------------------------------------------------------------------

  function Remaining(pcs: map<Thread, Pc>): map<Thread, int> {
    map t | t in pcs :: pcs[t].Remaining()
  }

  ghost function Work(s: State): int { Sum(Remaining(s.pcs)) }

  predicate Quiet(s: State) { forall t :: t in s.pcs ==> s.pcs[t].Idle? }

  /** A step that changes the accumulators or the records does so while nobody else is inside their lock. */
  lemma MutualExclusion(s0: State, steps: seq<Step>, s: State, step: Step, other: Thread)
    requires Initial(s0) && Run(s0, steps, s) && Enabled(s, step) && other in s.pcs && other != step.t
    ensures Apply(s, step).load != s.load ==> !s.pcs[other].HoldsLoad()
    ensures Apply(s, step).records != s.records ==> !s.pcs[other].HoldsRecords()
  {
    InitialInv(s0);
    RunInv(s0, steps, s);
    assert s.pcs[step.t].HoldsLoad() <==> s.loadLock == Some(step.t);
    assert s.pcs[step.t].HoldsRecords() <==> s.recordLock == Some(step.t);
  }

  lemma FinishingReducesWork(s: State, step: Step)
    requires Enabled(s, step) && step.Finishing()
    ensures 0 <= Work(Apply(s, step)) < Work(s)
  {
    var pc' := Apply(s, step).pcs[step.t];
    SumUpdate(Remaining(s.pcs), step.t, pc'.Remaining());
    assert Remaining(s.pcs[step.t := pc']) == Remaining(s.pcs)[step.t := pc'.Remaining()];
    SumNonNegative(Remaining(s.pcs[step.t := pc']));
  }

  /** Some goroutine inside a call can always move, although the two locks are nested one way only. */
  lemma NoDeadlock(s: State) returns (step: Step)
    requires Inv(s) && !Quiet(s)
    ensures Enabled(s, step) && step.Finishing()
  {
    if s.recordLock.Some? {
      var t := s.recordLock.value;
      var pc := s.pcs[t];
      step := if pc.Recording? then Record(t, pc.request, pc.entry) else Take(t, pc.request);
    } else if s.loadLock.Some? {
      var t := s.loadLock.value;
      step := if s.pcs[t].Charged? then LockForRecord(t) else LowerLoad(t);
    } else {
      var t :| t in s.pcs && !s.pcs[t].Idle?;
      step := LockForLower(t);
    }
  }

  /** From every reachable state the calls in progress can all be finished without starting another. */
  lemma {:induction false} Drain(s: State) returns (steps: seq<Step>, s': State)
    requires Inv(s)
    ensures Run(s, steps, s') && Inv(s') && Quiet(s')
    ensures forall i :: 0 <= i < |steps| ==> steps[i].Finishing()
    ensures forall p :: Get(s'.load, p) == Recorded(s', p) + Lost(s'.lost, p)
    decreases Work(s)
  {
    if Quiet(s) {
      steps, s' := [], s;
      forall p ensures Get(s.load, p) == Recorded(s, p) + Lost(s.lost, p) {
        assert Balanced(s, p);
        AllZero(CarriedShares(s.pcs, p));
      }
    } else {
      var step := NoDeadlock(s);
      InvKept(s, step);
      FinishingReducesWork(s, step);
      var rest;
      rest, s' := Drain(Apply(s, step));
      steps := [step] + rest;
      assert steps[1..] == rest;
    }
  }
}
