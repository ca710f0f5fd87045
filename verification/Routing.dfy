/**
 * The routing context's write-once target. `SetTargetPod` swaps the target in only if it still is the
 * sentinel, then closes the context's channel; `Delete` sets nil the same way and puts the context into a
 * pool; `TargetPod` loads the target and, on finding the sentinel, blocks on the channel and loads again.
 * Calls run concurrently, one step at a time. A pooled context is reset, with a new channel, for its next
 * use, whatever calls are still under way.
 */
module RoutingContexts {
  import opened Collections

  datatype Target = Sentinel | NoPod | APod(name: string)

  /** Where a call stands. A setter closes, and a reader blocks on, the channel the context has at that moment. */
  datatype Pc =
    | Setting(value: Target, deletes: bool) // about to swap
    | Closing(deletes: bool)                // has swapped
    | Putting                               // a Delete that is done setting
    | SetDone
    | Loading
    | Missed                                // has loaded the sentinel
    | Waiting(channel: nat)
    | Reloading
    | Returned(result: Target)

  /**
   * `crashed` says that a closed channel was closed again, `deleted` that the use's one Delete has begun.
   * The channel's number is the number of the use. `first`, `uses` and `setter` are history variables: the
   * value of the first call in this use to reach its swap, the use each call began in, and the use of the
   * call that set the target.
   */
  datatype State = State(
    target: Target,
    channel: nat,
    closed: set<nat>,
    crashed: bool,
    deleted: bool,
    pooled: bool,
    pcs: map<nat, Pc>,
    first: Option<Target>,
    uses: map<nat, nat>,
    setter: nat)

  datatype Step =
    | BeginSet(call: nat, value: Target)
    | BeginDelete(call: nat)
    | Swap(call: nat)
    | Close(call: nat)
    | Put(call: nat)
    | BeginGet(call: nat)
    | Load(call: nat)
    | Block(call: nat)
    | Wake(call: nat)
    | Reload(call: nat)
    | Reset

  /** The sentinel is private to the package, so no caller can store it; a use is deleted once. */
  predicate Enabled(s: State, step: Step) {
    match step
    case BeginSet(c, v) => c !in s.pcs && v != Sentinel
    case BeginDelete(c) => c !in s.pcs && !s.deleted
    case BeginGet(c) => c !in s.pcs
    case Reset => s.pooled
    case _ =>
      step.call in s.pcs &&
      var pc := s.pcs[step.call];
      match step
      case Swap(_) => pc.Setting?
      case Close(_) => pc.Closing?
      case Put(_) => pc.Putting?
      case Load(_) => pc.Loading?
      case Block(_) => pc.Missed?
      case Wake(_) => pc.Waiting? && pc.channel in s.closed
      case Reload(_) => pc.Reloading?
  }

  predicate Finished(pc: Pc) { pc.SetDone? || pc.Returned? }

  function Under(pcs: map<nat, Pc>): map<nat, Pc> { map c | c in pcs && !Finished(pcs[c]) :: pcs[c] }

  function UseOf(s: State, c: nat): nat { if c in s.uses then s.uses[c] else 0 }

  function Begin(s: State, c: nat, pc: Pc): State { s.(pcs := s.pcs[c := pc], uses := s.uses[c := s.channel]) }

  function Apply(s: State, step: Step): State
    requires Enabled(s, step)
  {
    match step
    case BeginSet(c, v) => Begin(s, c, Setting(v, false))
    case BeginDelete(c) => Begin(s, c, Setting(NoPod, true)).(deleted := true)
    case Swap(c) =>
      var pc := s.pcs[c];
      var noted := s.(first := if s.first.None? then Some(pc.value) else s.first);
      if s.target == Sentinel then noted.(target := pc.value, setter := UseOf(s, c), pcs := s.pcs[c := Closing(pc.deletes)])
      else noted.(pcs := s.pcs[c := Set(pc.deletes)])
    case Close(c) =>
      s.(closed := s.closed + {s.channel}, crashed := s.crashed || s.channel in s.closed,
         pcs := s.pcs[c := Set(s.pcs[c].deletes)])
    case Put(c) => s.(pooled := true, pcs := s.pcs[c := SetDone])
    case BeginGet(c) => Begin(s, c, Loading)
    case Load(c) => s.(pcs := s.pcs[c := if s.target == Sentinel then Missed else Returned(s.target)])
    case Block(c) => s.(pcs := s.pcs[c := Waiting(s.channel)])
    case Wake(c) => s.(pcs := s.pcs[c := Reloading])
    case Reload(c) => s.(pcs := s.pcs[c := Returned(s.target)])
    case Reset => State(Sentinel, s.channel + 1, s.closed, s.crashed, false, false, Under(s.pcs), None, s.uses, 0)
  }

  function Set(deletes: bool): Pc { if deletes then Putting else SetDone }

  const START := State(Sentinel, 0, {}, false, false, false, map[], None, map[], 0)

  ghost predicate Run(s: State, steps: seq<Step>, s': State)
    decreases |steps|
  {
    if steps == [] then s' == s
    else Enabled(s, steps[0]) && Run(Apply(s, steps[0]), steps[1..], s')
  }

  /** No channel was closed twice, and no call returned the sentinel. */
  ghost predicate Good(s: State) {
    !s.crashed && forall c :: c in s.pcs && s.pcs[c].Returned? ==> s.pcs[c].result != Sentinel
  }

  /** And every result was set by a call of the reader's own use, in that use. */
  ghost predicate Own(s: State) {
    Good(s) && forall c :: c in s.pcs && s.pcs[c].Returned? ==> UseOf(s, c) == s.channel == s.setter
  }

  // --- what the flags mean ---------------------------------------------------------------------------------

  /** Two closes in one use. */
  predicate Recloses(steps: seq<Step>, i: nat, j: nat) {
    i < j < |steps| && steps[i].Close? && steps[j].Close? && forall k :: i < k < j ==> !steps[k].Reset?
  }

  /** A close in the use the run starts in. */
  predicate ClosesFirst(steps: seq<Step>, j: nat) {
    j < |steps| && steps[j].Close? && forall k :: 0 <= k < j ==> !steps[k].Reset?
  }

  lemma RecloseShifted(steps: seq<Step>)
    requires steps != []
    ensures (exists i: nat, j: nat :: Recloses(steps, i, j)) <==>
      || (exists i: nat, j: nat :: Recloses(steps[1..], i, j))
      || (steps[0].Close? && exists j: nat :: ClosesFirst(steps[1..], j))
  {
    var rest := steps[1..];
    assert forall k :: 0 <= k < |rest| ==> rest[k] == steps[k + 1];
    if i: nat, j: nat :| Recloses(rest, i, j) { assert Recloses(steps, i + 1, j + 1); }
    if j: nat :| steps[0].Close? && ClosesFirst(rest, j) { assert Recloses(steps, 0, j + 1); }
    if i: nat, j: nat :| Recloses(steps, i, j) {
      if i == 0 { assert ClosesFirst(rest, j - 1); } else { assert Recloses(rest, i - 1, j - 1); }
    }
  }

  lemma CloseShifted(steps: seq<Step>)
    requires steps != []
    ensures (exists j: nat :: ClosesFirst(steps, j)) <==>
      steps[0].Close? || (!steps[0].Reset? && exists j: nat :: ClosesFirst(steps[1..], j))
  {
    var rest := steps[1..];
    assert forall k :: 0 <= k < |rest| ==> rest[k] == steps[k + 1];
    if steps[0].Close? { assert ClosesFirst(steps, 0); }
    if j: nat :| !steps[0].Reset? && ClosesFirst(rest, j) { assert ClosesFirst(steps, j + 1); }
    if j: nat :| ClosesFirst(steps, j) && j > 0 { assert ClosesFirst(rest, j - 1); }
  }

  lemma {:induction false} CrashesFrom(s: State, steps: seq<Step>, s': State)
    requires Run(s, steps, s') && forall ch :: ch in s.closed ==> ch <= s.channel
    ensures s'.crashed <==>
      || s.crashed || (s.channel in s.closed && exists j: nat :: ClosesFirst(steps, j))
      || exists i: nat, j: nat :: Recloses(steps, i, j)
    decreases |steps|
  {
    if steps != [] {
      CrashesFrom(Apply(s, steps[0]), steps[1..], s');
      RecloseShifted(steps);
      CloseShifted(steps);
    }
  }

  /** A run closes a closed channel exactly if two of its closes have no reset between them. */
  lemma CrashExact(steps: seq<Step>, s: State)
    requires Run(START, steps, s)
    ensures s.crashed <==> exists i: nat, j: nat :: Recloses(steps, i, j)
  {
    CrashesFrom(START, steps, s);
  }

  /** The last use of the run begins after step i. */
  predicate LastUse(steps: seq<Step>, i: int) { forall k :: i < k < |steps| && 0 <= k ==> !steps[k].Reset? }

  predicate PutAt(steps: seq<Step>, i: nat) { i < |steps| && steps[i].Put? && LastUse(steps, i) }

  predicate DeleteAt(steps: seq<Step>, i: nat) { i < |steps| && steps[i].BeginDelete? && LastUse(steps, i) }

  lemma LastUseShifted(steps: seq<Step>, i: int)
    requires steps != [] && i >= -1
    ensures LastUse(steps, i + 1) <==> LastUse(steps[1..], i)
  {
    assert forall k :: 0 <= k < |steps[1..]| ==> steps[1..][k] == steps[k + 1];
    if LastUse(steps[1..], i) {
      forall k | i + 1 < k < |steps| && 0 <= k ensures !steps[k].Reset? { assert steps[1..][k - 1] == steps[k]; }
    }
  }

  lemma FlagsShifted(steps: seq<Step>)
    requires steps != []
    ensures LastUse(steps, -1) <==> LastUse(steps[1..], -1) && !steps[0].Reset?
    ensures (exists i: nat :: PutAt(steps, i)) <==>
      (steps[0].Put? && LastUse(steps[1..], -1)) || exists i: nat :: PutAt(steps[1..], i)
    ensures (exists i: nat :: DeleteAt(steps, i)) <==>
      (steps[0].BeginDelete? && LastUse(steps[1..], -1)) || exists i: nat :: DeleteAt(steps[1..], i)
  {
    var rest := steps[1..];
    LastUseShifted(steps, -1);
    assert LastUse(steps, -1) <==> LastUse(steps, 0) && !steps[0].Reset?;
    forall i: nat | i < |rest| ensures PutAt(rest, i) == PutAt(steps, i + 1) && DeleteAt(rest, i) == DeleteAt(steps, i + 1) {
      LastUseShifted(steps, i);
    }
    if steps[0].Put? && LastUse(rest, -1) { assert PutAt(steps, 0); }
    if steps[0].BeginDelete? && LastUse(rest, -1) { assert DeleteAt(steps, 0); }
    if i: nat :| PutAt(steps, i) && i > 0 { assert PutAt(rest, i - 1); }
    if i: nat :| DeleteAt(steps, i) && i > 0 { assert DeleteAt(rest, i - 1); }
  }

  lemma {:induction false} FlagsFrom(s: State, steps: seq<Step>, s': State)
    requires Run(s, steps, s')
    ensures s'.pooled <==> (s.pooled && LastUse(steps, -1)) || exists i: nat :: PutAt(steps, i)
    ensures s'.deleted <==> (s.deleted && LastUse(steps, -1)) || exists i: nat :: DeleteAt(steps, i)
    decreases |steps|
  {
    if steps != [] {
      FlagsFrom(Apply(s, steps[0]), steps[1..], s');
      FlagsShifted(steps);
    }
  }

  /** A context is in the pool exactly if its last use was put back, and deleted exactly if a Delete of that use began. */
  lemma FlagsExact(steps: seq<Step>, s: State)
    requires Run(START, steps, s)
    ensures s.pooled <==> exists i: nat :: PutAt(steps, i)
    ensures s.deleted <==> exists i: nat :: DeleteAt(steps, i)
  {
    FlagsFrom(START, steps, s);
  }

  // --- one use -------------------------------------------------------------------------------------------

  predicate IsClosing(pcs: map<nat, Pc>, c: nat) { c in pcs && pcs[c].Closing? }

  ghost predicate OnlyCloser(pcs: map<nat, Pc>, c: nat) { forall d :: IsClosing(pcs, d) <==> d == c }

  /** The sentinel is still there and nobody has closed, or exactly one call has closed or is about to. */
  ghost predicate ClosedOnce(target: Target, isClosed: bool, pcs: map<nat, Pc>) {
    if target == Sentinel then !isClosed && forall c :: !IsClosing(pcs, c)
    else if isClosed then forall c :: !IsClosing(pcs, c)
    else exists c :: OnlyCloser(pcs, c)
  }

  /** What a call may be doing, given the state around it. */
  predicate CallOk(pc: Pc, target: Target, channel: nat, isClosed: bool, deleted: bool, pooled: bool) {
    match pc
    case Setting(v, deletes) => v != Sentinel && (deletes ==> deleted && !pooled)
    case Closing(deletes) => deletes ==> deleted && !pooled
    case Putting => deleted && !pooled && target != Sentinel
    case Waiting(ch) => ch == channel
    case Reloading => isClosed
    case Returned(v) => v == target && v != Sentinel
    case _ => true
  }

  ghost predicate CallsOk(s: State) {
    forall c :: c in s.pcs ==> CallOk(s.pcs[c], s.target, s.channel, s.channel in s.closed, s.deleted, s.pooled)
  }

  predicate Deleting(pc: Pc) { pc.Putting? || ((pc.Setting? || pc.Closing?) && pc.deletes) }

  ghost predicate Inv(s: State) {
    && s.target == (if s.first.Some? then s.first.value else Sentinel) && s.first != Some(Sentinel)
    && !s.crashed && (s.pooled ==> s.deleted && s.target != Sentinel)
    && (forall ch :: ch in s.closed ==> ch <= s.channel) && (forall c :: c in s.pcs ==> UseOf(s, c) <= s.channel)
    && ClosedOnce(s.target, s.channel in s.closed, s.pcs)
    && CallsOk(s)
    && (forall c, d :: c in s.pcs && d in s.pcs && Deleting(s.pcs[c]) && Deleting(s.pcs[d]) ==> c == d)
  }

  lemma ClosersAfter(pcs: map<nat, Pc>, call: nat, pc: Pc, d: nat)
    ensures IsClosing(pcs[call := pc], d) <==> if d == call then pc.Closing? else IsClosing(pcs, d)
  {
  }

  lemma ClosingKept(s: State, step: Step)
    requires Inv(s) && Enabled(s, step) && !step.Reset?
    ensures var t := Apply(s, step); ClosedOnce(t.target, t.channel in t.closed, t.pcs)
  {
    var t := Apply(s, step);
    var pc := t.pcs[step.call];
    assert t.pcs == s.pcs[step.call := pc] && (step.Close? ==> IsClosing(s.pcs, step.call));
    forall d ensures IsClosing(t.pcs, d) <==> if d == step.call then pc.Closing? else IsClosing(s.pcs, d) {
      ClosersAfter(s.pcs, step.call, pc, d);
    }
    if step.Swap? && s.target == Sentinel {
      assert OnlyCloser(t.pcs, step.call);
    } else if s.target != Sentinel && s.channel !in s.closed {
      var c :| OnlyCloser(s.pcs, c);
      assert IsClosing(s.pcs, c);
      if !step.Close? { assert OnlyCloser(t.pcs, c); }
    }
  }

  /** Only the call that moves, and what it sees, changes. */
  lemma CallsKept(s: State, step: Step)
    requires Inv(s) && Enabled(s, step) && !step.Reset?
    ensures CallsOk(Apply(s, step))
  {
    var t := Apply(s, step);
    assert step.Close? ==> IsClosing(s.pcs, step.call);
    assert step.Put? ==> Deleting(s.pcs[step.call]);
    forall c | c in t.pcs
      ensures CallOk(t.pcs[c], t.target, t.channel, t.channel in t.closed, t.deleted, t.pooled)
    {
      if c != step.call { assert t.pcs[c] == s.pcs[c] && (step.Put? ==> !Deleting(s.pcs[c])); }
    }
  }

  lemma DeletesKept(s: State, step: Step, c: nat, d: nat)
    requires Inv(s) && Enabled(s, step) && !step.Reset?
    requires var t := Apply(s, step); c in t.pcs && d in t.pcs && Deleting(t.pcs[c]) && Deleting(t.pcs[d])
    ensures c == d
  {
    var t := Apply(s, step);
    if !step.BeginDelete? {
      assert c in s.pcs && Deleting(s.pcs[c]) && d in s.pcs && Deleting(s.pcs[d]);
    } else {
      assert forall e :: e in s.pcs ==> CallOk(s.pcs[e], s.target, s.channel, s.channel in s.closed, s.deleted, s.pooled);
      assert forall e :: e in s.pcs ==> !Deleting(s.pcs[e]);
    }
  }

  lemma StepKeeps(s: State, step: Step)
    requires Inv(s) && Enabled(s, step) && !step.Reset?
    ensures Inv(Apply(s, step))
  {
    assert step.Close? ==> IsClosing(s.pcs, step.call);
    if step.Put? || step.Swap? {
      assert CallOk(s.pcs[step.call], s.target, s.channel, s.channel in s.closed, s.deleted, s.pooled);
    }
    ClosingKept(s, step);
    CallsKept(s, step);
    forall c, d | c in Apply(s, step).pcs && d in Apply(s, step).pcs
                  && Deleting(Apply(s, step).pcs[c]) && Deleting(Apply(s, step).pcs[d])
      ensures c == d
    {
      DeletesKept(s, step, c, d);
    }
  }

  // --- reuse ---------------------------------------------------------------------------------------------

  /** The call would carry the old use into the new one: its close, its wake-up or its reload is still to come. */
  predicate Straddles(pc: Pc) { pc.Closing? || pc.Waiting? || pc.Reloading? }

  predicate NoneStraddles(pcs: map<nat, Pc>) { forall c :: c in pcs ==> !Straddles(pcs[c]) }

  lemma ResetKeeps(s: State)
    requires Inv(s) && Enabled(s, Reset) && NoneStraddles(s.pcs)
    ensures Inv(Apply(s, Reset))
  {
    var t := Apply(s, Reset);
    assert forall c :: !IsClosing(t.pcs, c);
    forall c | c in t.pcs
      ensures CallOk(t.pcs[c], t.target, t.channel, t.channel in t.closed, t.deleted, t.pooled) && !Deleting(t.pcs[c])
    {
      assert CallOk(s.pcs[c], s.target, s.channel, s.channel in s.closed, s.deleted, s.pooled);
    }
  }

  predicate SameUse(steps: seq<Step>) { forall i :: 0 <= i < |steps| ==> !steps[i].Reset? }

  lemma {:induction false} UseKeeps(s: State, steps: seq<Step>, s': State)
    requires Inv(s) && Run(s, steps, s') && SameUse(steps)
    ensures Inv(s')
    decreases |steps|
  {
    if steps != [] {
      StepKeeps(s, steps[0]);
      UseKeeps(Apply(s, steps[0]), steps[1..], s');
    }
  }

  /** Whatever the calls of this use do, nothing goes wrong. */
  ghost predicate Safe(s: State) {
    forall steps, s' :: Run(s, steps, s') && SameUse(steps) ==> Good(s')
  }

  lemma Prepend(s: State, step: Step, steps: seq<Step>, s': State)
    requires Enabled(s, step) && Run(Apply(s, step), steps, s')
    ensures Run(s, [step] + steps, s')
  {
    assert ([step] + steps)[1..] == steps;
  }

  /** A reader about to reload returns the sentinel of the new use. */
  lemma ReloadFails(s: State, c: nat) returns (steps: seq<Step>, s': State)
    requires s.target == Sentinel && c in s.pcs && s.pcs[c].Reloading?
    ensures Run(s, steps, s') && SameUse(steps) && !Good(s')
  {
    s' := Apply(s, Reload(c));
    Prepend(s, Reload(c), [], s');
    steps := [Reload(c)] + [];
    assert s'.pcs[c] == Returned(Sentinel);
  }

  lemma WakeFails(s: State, c: nat) returns (steps: seq<Step>, s': State)
    requires s.target == Sentinel && c in s.pcs && s.pcs[c].Waiting? && s.pcs[c].channel in s.closed
    ensures Run(s, steps, s') && SameUse(steps) && !Good(s')
  {
    var rest;
    rest, s' := ReloadFails(Apply(s, Wake(c)), c);
    Prepend(s, Wake(c), rest, s');
    steps := [Wake(c)] + rest;
  }

  /** A setter about to close closes the new channel, and a new reader does not block on it. */
  lemma CloseFails(s: State, c: nat, reader: nat) returns (steps: seq<Step>, s': State)
    requires s.target == Sentinel && c in s.pcs && s.pcs[c].Closing? && reader !in s.pcs
    ensures Run(s, steps, s') && SameUse(steps) && !Good(s')
  {
    var s1 := Apply(s, Close(c));
    var s2 := Apply(s1, BeginGet(reader));
    var s3 := Apply(s2, Load(reader));
    var s4 := Apply(s3, Block(reader));
    steps, s' := WakeFails(s4, reader);
    Prepend(s3, Block(reader), steps, s');
    Prepend(s2, Load(reader), [Block(reader)] + steps, s');
    Prepend(s1, BeginGet(reader), [Load(reader)] + ([Block(reader)] + steps), s');
    Prepend(s, Close(c), [BeginGet(reader)] + ([Load(reader)] + ([Block(reader)] + steps)), s');
    steps := [Close(c)] + ([BeginGet(reader)] + ([Load(reader)] + ([Block(reader)] + steps)));
  }

  lemma SomeFreshCall(pcs: map<nat, Pc>) returns (c: nat)
    ensures c !in pcs
  {
    c := Bound(pcs.Keys);
  }

  lemma {:induction false} Bound(s: set<nat>) returns (n: nat)
    ensures forall x :: x in s ==> x < n
    decreases |s|
  {
    if s == {} {
      n := 0;
    } else {
      var x :| x in s;
      var m := Bound(s - {x});
      n := if m > x then m else x + 1;
      assert forall y :: y in s ==> y == x || y in s - {x};
    }
  }

  lemma StraddlingFails(s: State, c: nat) returns (steps: seq<Step>, s': State)
    requires Inv(s) && Enabled(s, Reset) && c in s.pcs && Straddles(s.pcs[c])
    ensures Run(Apply(s, Reset), steps, s') && SameUse(steps) && !Good(s')
  {
    var t := Apply(s, Reset);
    assert t.pcs[c] == s.pcs[c];
    assert CallOk(s.pcs[c], s.target, s.channel, s.channel in s.closed, s.deleted, s.pooled);
    if s.pcs[c].Reloading? {
      steps, s' := ReloadFails(t, c);
    } else if s.pcs[c].Waiting? && s.channel in s.closed {
      steps, s' := WakeFails(t, c);
    } else {
      assert s.pcs[c].Closing? ==> IsClosing(s.pcs, c);
      var d :| OnlyCloser(s.pcs, d);
      assert IsClosing(s.pcs, d) && t.pcs[d] == s.pcs[d];
      var reader := SomeFreshCall(t.pcs);
      steps, s' := CloseFails(t, d, reader);
    }
  }

  /**
   * The exact guard of a reuse: the new use is safe if and only if no call of the old one is between its
   * swap and its close, blocked on the old channel, or about to reload.
   */
  lemma ResetExact(s: State)
    requires Inv(s) && Enabled(s, Reset)
    ensures Safe(Apply(s, Reset)) <==> NoneStraddles(s.pcs)
  {
    if NoneStraddles(s.pcs) {
      ResetKeeps(s);
      forall steps, s' | Run(Apply(s, Reset), steps, s') && SameUse(steps) ensures Good(s') {
        UseKeeps(Apply(s, Reset), steps, s');
        assert CallsOk(s');
      }
    } else {
      var c :| c in s.pcs && Straddles(s.pcs[c]);
      var steps, s' := StraddlingFails(s, c);
    }
  }

  // --- values that cross from one use to the next ---------------------------------------------------------

  /** Whatever the calls do, every result is of its reader's own use. */
  ghost predicate OwnSafe(s: State) {
    forall steps, s' :: Run(s, steps, s') && SameUse(steps) ==> Own(s')
  }

  /** All calls under way began in this use. */
  ghost predicate OwnInv(s: State) {
    && Inv(s) && (forall c :: c in s.pcs ==> UseOf(s, c) == s.channel)
    && (s.target != Sentinel ==> s.setter == s.channel)
  }

  lemma OwnStep(s: State, step: Step)
    requires OwnInv(s) && Enabled(s, step) && !step.Reset?
    ensures OwnInv(Apply(s, step))
  {
    StepKeeps(s, step);
  }

  lemma OwnReset(s: State)
    requires Inv(s) && Enabled(s, Reset) && Under(s.pcs) == map[]
    ensures OwnInv(Apply(s, Reset))
  {
    forall c | c in s.pcs ensures !Straddles(s.pcs[c]) {
      assert !Finished(s.pcs[c]) ==> c in Under(s.pcs);
    }
    ResetKeeps(s);
  }

  lemma OwnIsOwn(s: State)
    requires OwnInv(s)
    ensures Own(s)
  {
    assert CallsOk(s);
  }

  lemma {:induction false} OwnUseKeeps(s: State, steps: seq<Step>, s': State)
    requires OwnInv(s) && Run(s, steps, s') && SameUse(steps)
    ensures OwnInv(s')
    decreases |steps|
  {
    if steps != [] {
      OwnStep(s, steps[0]);
      OwnUseKeeps(Apply(s, steps[0]), steps[1..], s');
    }
  }

  /** A setter of the old use sets the new one's target, and a reader of the new use returns it. */
  lemma StaleSetter(s: State, c: nat, reader: nat) returns (steps: seq<Step>, s': State)
    requires s.target == Sentinel && c in s.pcs && s.pcs[c].Setting? && s.pcs[c].value != Sentinel
    requires UseOf(s, c) < s.channel && reader !in s.pcs
    ensures Run(s, steps, s') && SameUse(steps) && !Own(s')
    ensures reader in s'.pcs && s'.pcs[reader] == Returned(s.pcs[c].value)
    ensures UseOf(s', reader) == s.channel && s'.setter == UseOf(s, c)
  {
    var s1 := Apply(s, Swap(c));
    var s2 := Apply(s1, BeginGet(reader));
    s' := Apply(s2, Load(reader));
    Prepend(s2, Load(reader), [], s');
    Prepend(s1, BeginGet(reader), [Load(reader)] + [], s');
    Prepend(s, Swap(c), [BeginGet(reader)] + ([Load(reader)] + []), s');
    steps := [Swap(c)] + ([BeginGet(reader)] + ([Load(reader)] + []));
    assert s'.pcs[reader] == Returned(s.pcs[c].value) && s'.setter == UseOf(s, c);
  }

  /** A reader of the old use that has not loaded yet returns the new use's value. */
  lemma StaleLoad(s: State, c: nat, setter: nat) returns (steps: seq<Step>, s': State)
    requires s.target == Sentinel && c in s.pcs && s.pcs[c].Loading? && UseOf(s, c) < s.channel && setter !in s.pcs
    ensures Run(s, steps, s') && SameUse(steps) && !Own(s')
  {
    var s1 := Apply(s, BeginSet(setter, NoPod));
    var s2 := Apply(s1, Swap(setter));
    s' := Apply(s2, Load(c));
    Prepend(s2, Load(c), [], s');
    Prepend(s1, Swap(setter), [Load(c)] + [], s');
    Prepend(s, BeginSet(setter, NoPod), [Swap(setter)] + ([Load(c)] + []), s');
    steps := [BeginSet(setter, NoPod)] + ([Swap(setter)] + ([Load(c)] + []));
    assert s'.pcs[c] == Returned(NoPod);
  }

  lemma BlockedReturns(s: State, c: nat) returns (steps: seq<Step>, s': State)
    requires s.target != Sentinel && s.channel in s.closed && c in s.pcs && s.pcs[c].Missed? && UseOf(s, c) < s.channel
    ensures Run(s, steps, s') && SameUse(steps) && !Own(s')
  {
    var s1 := Apply(s, Block(c));
    var s2 := Apply(s1, Wake(c));
    s' := Apply(s2, Reload(c));
    Prepend(s2, Reload(c), [], s');
    Prepend(s1, Wake(c), [Reload(c)] + [], s');
    Prepend(s, Block(c), [Wake(c)] + ([Reload(c)] + []), s');
    steps := [Block(c)] + ([Wake(c)] + ([Reload(c)] + []));
    assert s'.pcs[c] == Returned(s.target);
  }

  /** Nor does it help a reader to have seen the old use's sentinel. */
  lemma StaleMiss(s: State, c: nat, setter: nat) returns (steps: seq<Step>, s': State)
    requires s.target == Sentinel && c in s.pcs && s.pcs[c].Missed? && UseOf(s, c) < s.channel && setter !in s.pcs
    ensures Run(s, steps, s') && SameUse(steps) && !Own(s')
  {
    var s1 := Apply(s, BeginSet(setter, NoPod));
    var s2 := Apply(s1, Swap(setter));
    var s3 := Apply(s2, Close(setter));
    steps, s' := BlockedReturns(s3, c);
    Prepend(s2, Close(setter), steps, s');
    Prepend(s1, Swap(setter), [Close(setter)] + steps, s');
    Prepend(s, BeginSet(setter, NoPod), [Swap(setter)] + ([Close(setter)] + steps), s');
    steps := [BeginSet(setter, NoPod)] + ([Swap(setter)] + ([Close(setter)] + steps));
  }

  lemma UnderWayFails(s: State, c: nat) returns (steps: seq<Step>, s': State)
    requires Inv(s) && Enabled(s, Reset) && c in s.pcs && !Finished(s.pcs[c])
    ensures Run(Apply(s, Reset), steps, s') && SameUse(steps) && !Own(s')
  {
    var t := Apply(s, Reset);
    assert t.pcs[c] == s.pcs[c] && UseOf(t, c) < t.channel;
    assert CallOk(s.pcs[c], s.target, s.channel, s.channel in s.closed, s.deleted, s.pooled);
    if Straddles(s.pcs[c]) {
      steps, s' := StraddlingFails(s, c);
    } else {
      var other := SomeFreshCall(t.pcs);
      if s.pcs[c].Setting? {
        steps, s' := StaleSetter(t, c, other);
      } else if s.pcs[c].Loading? {
        steps, s' := StaleLoad(t, c, other);
      } else {
        steps, s' := StaleMiss(t, c, other);
      }
    }
  }

  /**
   * The exact guard of a reuse for the whole promise: every continuation of the new use keeps each result a
   * value set by a call of the reader's own use, if and only if no call of the old use is under way.
   */
  lemma ReuseExact(s: State)
    requires Inv(s) && Enabled(s, Reset)
    ensures OwnSafe(Apply(s, Reset)) <==> Under(s.pcs) == map[]
  {
    if Under(s.pcs) == map[] {
      OwnReset(s);
      forall steps, s' | Run(Apply(s, Reset), steps, s') && SameUse(steps) ensures Own(s') {
        OwnUseKeeps(Apply(s, Reset), steps, s');
        OwnIsOwn(s');
      }
    } else {
      var c :| c in Under(s.pcs);
      var steps, s' := UnderWayFails(s, c);
    }
  }

  // --- whole runs ----------------------------------------------------------------------------------------

  /** A run in which no call straddles a reset. */
  ghost predicate OrderlyRun(s: State, steps: seq<Step>, s': State)
    decreases |steps|
  {
    if steps == [] then s' == s
    else
      && Enabled(s, steps[0]) && (steps[0].Reset? ==> NoneStraddles(s.pcs))
      && OrderlyRun(Apply(s, steps[0]), steps[1..], s')
  }

  lemma {:induction false} RunsKeep(s: State, steps: seq<Step>, s': State)
    requires Inv(s) && OrderlyRun(s, steps, s')
    ensures Inv(s')
    decreases |steps|
  {
    if steps != [] {
      if steps[0].Reset? { ResetKeeps(s); } else { StepKeeps(s, steps[0]); }
      RunsKeep(Apply(s, steps[0]), steps[1..], s');
    }
  }

  /** In every run whose reuses no call straddles, no channel is closed twice and no call returns the sentinel. */
  lemma NeverSentinel(steps: seq<Step>, s: State)
    requires OrderlyRun(START, steps, s)
    ensures Good(s)
    ensures forall c :: c in s.pcs && s.pcs[c].Returned? ==> s.first == Some(s.pcs[c].result)
  {
    RunsKeep(START, steps, s);
    assert CallsOk(s);
  }

  /** A run in which every reset finds no call under way. */
  ghost predicate QuietRun(s: State, steps: seq<Step>, s': State)
    decreases |steps|
  {
    if steps == [] then s' == s
    else
      && Enabled(s, steps[0]) && (steps[0].Reset? ==> Under(s.pcs) == map[])
      && QuietRun(Apply(s, steps[0]), steps[1..], s')
  }

  lemma {:induction false} QuietKeeps(s: State, steps: seq<Step>, s': State)
    requires OwnInv(s) && QuietRun(s, steps, s')
    ensures OwnInv(s')
    decreases |steps|
  {
    if steps != [] {
      if steps[0].Reset? { OwnReset(s); } else { OwnStep(s, steps[0]); }
      QuietKeeps(Apply(s, steps[0]), steps[1..], s');
    }
  }

  /**
   * In every run that reuses the context only with no call under way, and in every use: no channel is closed
   * twice, and every `TargetPod` returns the value of the first `SetTargetPod` or `Delete` of its own use.
   */
  lemma WriteOnce(steps: seq<Step>, s: State)
    requires QuietRun(START, steps, s)
    ensures Own(s)
    ensures forall c :: c in s.pcs && s.pcs[c].Returned? ==> s.first == Some(s.pcs[c].result)
  {
    QuietKeeps(START, steps, s);
    OwnIsOwn(s);
    assert CallsOk(s);
  }

  lemma PrependOrderly(s: State, step: Step, steps: seq<Step>, s': State)
    requires Enabled(s, step) && (step.Reset? ==> NoneStraddles(s.pcs)) && OrderlyRun(Apply(s, step), steps, s')
    ensures OrderlyRun(s, [step] + steps, s')
  {
    assert ([step] + steps)[1..] == steps;
  }

  lemma {:induction false} UseIsOrderly(s: State, steps: seq<Step>, s': State)
    requires Run(s, steps, s') && SameUse(steps)
    ensures OrderlyRun(s, steps, s')
    decreases |steps|
  {
    if steps != [] { UseIsOrderly(Apply(s, steps[0]), steps[1..], s'); }
  }

  /** Call 0, about to swap in a pod, is left behind when call 1 finishes the Delete and the context is reused. */
  lemma LeftBehind(s: State) returns (steps: seq<Step>, s': State)
    requires s.channel == 0 && s.closed == {} && !s.pooled
    requires s.pcs.Keys == {0, 1} && s.pcs[0].Setting? && s.pcs[0].value != Sentinel && s.pcs[1] == Closing(true)
    requires UseOf(s, 0) == 0
    ensures OrderlyRun(s, steps, s') && 2 in s'.pcs && s'.pcs[2] == Returned(s.pcs[0].value)
    ensures UseOf(s', 2) == 1 && s'.setter == 0
  {
    var s1 := Apply(s, Close(1));
    var s2 := Apply(s1, Put(1));
    assert NoneStraddles(s2.pcs) && s2.pooled;
    var s3 := Apply(s2, Reset);
    assert 0 in s3.pcs && s3.pcs[0] == s.pcs[0] && 2 !in s3.pcs;
    steps, s' := StaleSetter(s3, 0, 2);
    UseIsOrderly(s3, steps, s');
    PrependOrderly(s2, Reset, steps, s');
    PrependOrderly(s1, Put(1), [Reset] + steps, s');
    PrependOrderly(s, Close(1), [Put(1)] + ([Reset] + steps), s');
    steps := [Close(1)] + ([Put(1)] + ([Reset] + steps));
  }

  /**
   * A request routed to another request's pod, although no call straddles the reuse: a setter of the first use
   * swaps after the reset, and a reader of the second use, which has set nothing, returns its pod.
   */
  lemma OtherUsesPod(pod: string) returns (steps: seq<Step>, s: State)
    ensures OrderlyRun(START, steps, s) && 2 in s.pcs && s.pcs[2] == Returned(APod(pod))
    ensures UseOf(s, 2) == 1 && s.setter == 0
  {
    var s1 := Apply(START, BeginSet(0, APod(pod)));
    var s2 := Apply(s1, BeginDelete(1));
    var s3 := Apply(s2, Swap(1));
    steps, s := LeftBehind(s3);
    PrependOrderly(s2, Swap(1), steps, s);
    PrependOrderly(s1, BeginDelete(1), [Swap(1)] + steps, s);
    PrependOrderly(START, BeginSet(0, APod(pod)), [BeginDelete(1)] + ([Swap(1)] + steps), s);
    steps := [BeginSet(0, APod(pod))] + ([BeginDelete(1)] + ([Swap(1)] + steps));
  }

  /** No wake-up is lost: once a value is set, closing it is a step away and then every waiter can go on. */
  lemma WaitersWake(steps: seq<Step>, s: State, reader: nat)
    requires OrderlyRun(START, steps, s) && reader in s.pcs && s.pcs[reader].Waiting?
    ensures s.first.None? || Enabled(s, Wake(reader)) ||
            exists c :: Enabled(s, Close(c)) && Enabled(Apply(s, Close(c)), Wake(reader))
  {
    RunsKeep(START, steps, s);
    assert CallsOk(s);
    if s.first.Some? && s.channel !in s.closed {
      var c :| OnlyCloser(s.pcs, c);
      assert IsClosing(s.pcs, c);
      assert Enabled(s, Close(c)) && Enabled(Apply(s, Close(c)), Wake(reader));
    }
  }

  /** A reader that the close has released but that has not reloaded when the context is reused. */
  lemma ReleasedReader(s: State, c: nat) returns (steps: seq<Step>, s': State)
    requires s.pooled && c in s.pcs && s.pcs[c].Waiting? && s.pcs[c].channel in s.closed
    ensures Run(s, steps, s') && c in s'.pcs && s'.pcs[c] == Returned(Sentinel)
  {
    var s1 := Apply(s, Wake(c));
    var s2 := Apply(s1, Reset);
    s' := Apply(s2, Reload(c));
    Prepend(s2, Reload(c), [], s');
    Prepend(s1, Reset, [Reload(c)] + [], s');
    Prepend(s, Wake(c), [Reset] + ([Reload(c)] + []), s');
    steps := [Wake(c)] + ([Reset] + ([Reload(c)] + []));
  }

  /** A `Delete` on a context with one blocked reader. */
  lemma DeletesOver(s: State, d: nat) returns (s': State, front: seq<Step>)
    requires s.target == Sentinel && !s.deleted && d !in s.pcs
    ensures front == [BeginDelete(d), Swap(d), Close(d), Put(d)]
    ensures s'.pooled && s'.closed == s.closed + {s.channel} && forall c :: c in s.pcs ==> c in s'.pcs && s'.pcs[c] == s.pcs[c]
    ensures forall steps, s'' :: Run(s', steps, s'') ==> Run(s, front + steps, s'')
  {
    var s1 := Apply(s, BeginDelete(d));
    var s2 := Apply(s1, Swap(d));
    var s3 := Apply(s2, Close(d));
    s' := Apply(s3, Put(d));
    front := [BeginDelete(d), Swap(d), Close(d), Put(d)];
    forall steps, s'' | Run(s', steps, s'') ensures Run(s, front + steps, s'') {
      Prepend(s3, Put(d), steps, s'');
      Prepend(s2, Close(d), [Put(d)] + steps, s'');
      Prepend(s1, Swap(d), [Close(d)] + ([Put(d)] + steps), s'');
      Prepend(s, BeginDelete(d), [Swap(d)] + ([Close(d)] + ([Put(d)] + steps)), s'');
      assert front + steps == [BeginDelete(d)] + ([Swap(d)] + ([Close(d)] + ([Put(d)] + steps)));
    }
  }

  /**
   * The guard is missed by an ordinary run: `Delete` releases a reader, the context is reused, and the
   * reader then returns the sentinel.
   */
  lemma DeleteReturnsSentinel() returns (steps: seq<Step>, s: State)
    ensures Run(START, steps, s) && 0 in s.pcs && s.pcs[0] == Returned(Sentinel)
  {
    var s1 := Apply(START, BeginGet(0));
    var s2 := Apply(s1, Load(0));
    var s3 := Apply(s2, Block(0));
    var s4, front := DeletesOver(s3, 1);
    steps, s := ReleasedReader(s4, 0);
    steps := front + steps;
    Prepend(s2, Block(0), steps, s);
    Prepend(s1, Load(0), [Block(0)] + steps, s);
    Prepend(START, BeginGet(0), [Load(0)] + ([Block(0)] + steps), s);
    steps := [BeginGet(0)] + ([Load(0)] + ([Block(0)] + steps));
  }

  /** And by a setter between its swap and its close when a `Delete` that lost the swap is done. */
  lemma EarlyResetReturnsSentinel(pod: string) returns (steps: seq<Step>, s: State)
    ensures Run(START, steps, s) && !Good(s)
  {
    var s1 := Apply(START, BeginSet(0, APod(pod)));
    var s2 := Apply(s1, Swap(0));
    var s3 := Apply(s2, BeginDelete(1));
    var s4 := Apply(s3, Swap(1));
    var s5 := Apply(s4, Put(1));
    var s6 := Apply(s5, Reset);
    steps, s := CloseFails(s6, 0, 2);
    Prepend(s5, Reset, steps, s);
    Prepend(s4, Put(1), [Reset] + steps, s);
    Prepend(s3, Swap(1), [Put(1)] + ([Reset] + steps), s);
    steps := [Swap(1)] + ([Put(1)] + ([Reset] + steps));
    Prepend(s2, BeginDelete(1), steps, s);
    Prepend(s1, Swap(0), [BeginDelete(1)] + steps, s);
    Prepend(START, BeginSet(0, APod(pod)), [Swap(0)] + ([BeginDelete(1)] + steps), s);
    steps := [BeginSet(0, APod(pod))] + ([Swap(0)] + ([BeginDelete(1)] + steps));
  }
}
