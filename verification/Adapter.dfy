/**
 * The model-adapter controller. One reconcile reads the cluster through calls that may fail or find the
 * cluster changed since the previous call, and writes the adapter's status, the adapter loaded on a pod,
 * a service and an endpoint slice. `Calls` holds the answers of one reconcile; `Reconciled` is what the
 * reconcile makes of them.
 */
module ModelAdapters {
  import opened Collections

  datatype Phase = Fresh | Pending | Scheduled | Bound | ResourceCreated | Running | Failed
  datatype Condition = IsInitialized | IsScheduled | IsBound | IsResourceCreated | IsReady | IsFailed
  datatype Truth = True | False | Unknown

  datatype Status = Status(phase: Phase, instances: seq<string>, conditions: map<Condition, Truth>)
  datatype Pod = Pod(name: string, ip: string, labels: map<string, string>, ready: bool, terminating: bool)

  /** What outlives a reconcile. `loaded` holds the addresses whose server lists the adapter. */
  datatype World = World(status: Status, loaded: set<string>, service: bool, slice: Option<seq<seq<string>>>)

  datatype Fetched = Found(pod: Pod) | NotFound | Error

  /**
   * Answers of one reconcile: the three reads of the chosen pod, the pod list (None: failed), the
   * scheduler's pick, the server's model list (None: failed), and which of the other calls succeed.
   */
  datatype Calls = Calls(
    chosen: Fetched, target: Fetched, endpoint: Fetched,
    listed: Option<seq<Pod>>, pick: nat, pickOk: bool,
    serves: Option<bool>, loadOk: bool,
    serviceGetOk: bool, serviceCreateOk: bool, sliceGetOk: bool, sliceWriteOk: bool,
    statusOk: bool, innerStatusOk: bool)

  datatype Verdict = Finished | Requeued | Erred | Crashed

  predicate Matches(selector: map<string, string>, labels: map<string, string>) {
    forall k :: k in selector ==> k in labels && labels[k] == selector[k]
  }

  predicate Active(pod: Pod) { pod.ready && !pod.terminating }

  predicate Usable(selector: map<string, string>, pod: Pod) { Matches(selector, pod.labels) && Active(pod) }

  function ActivePods(pods: seq<Pod>): seq<Pod> {
    if pods == [] then [] else
      var rest := ActivePods(pods[..|pods| - 1]);
      if Active(pods[|pods| - 1]) then rest + [pods[|pods| - 1]] else rest
  }

  function Without(xs: seq<string>, x: string): seq<string> {
    if xs == [] then [] else
      var rest := Without(xs[..|xs| - 1], x);
      if xs[|xs| - 1] == x then rest else rest + [xs[|xs| - 1]]
  }

  predicate Named(endpoints: seq<seq<string>>, ip: string) {
    exists i :: 0 <= i < |endpoints| && ip in endpoints[i]
  }

  /** Drops the address everywhere, and the endpoints it leaves empty. */
  function Detached(endpoints: seq<seq<string>>, ip: string): seq<seq<string>> {
    if endpoints == [] then [] else
      var rest, last := Detached(endpoints[..|endpoints| - 1], ip), endpoints[|endpoints| - 1];
      if ip in last && Without(last, ip) == [] then rest else rest + [Without(last, ip)]
  }

  // --- one reconcile ---------------------------------------------------------------------------------

  function Persist(w: World, st: Status, ok: bool): World { if ok then w.(status := st) else w }

  /** The list without the stale pod; None when a condition the code updates is missing. */
  function Cleared(st: Status, stale: string): Option<Status> {
    if IsScheduled !in st.conditions || IsReady !in st.conditions then None
    else Some(Status(Pending, Without(st.instances, stale),
                     st.conditions[IsFailed := True][IsScheduled := False][IsReady := False]))
  }

  function Clear(w: World, stale: string, c: Calls): (World, Verdict) {
    match Cleared(w.status, stale)
    case None => (w, Crashed)
    case Some(st) => (Persist(w, st, c.statusOk), if c.statusOk then Finished else Erred)
  }

  function Schedule(w: World, active: seq<Pod>, c: Calls): (World, Verdict)
    requires active != []
  {
    if !c.pickOk then (w, Erred) else
      var st := Status(Scheduled, w.status.instances + [active[c.pick % |active|].name],
                       w.status.conditions[IsScheduled := True]);
      (Persist(w, st, c.statusOk), if c.statusOk then Requeued else Erred)
  }

  /** The loaded addresses afterwards, or None for an error. */
  function Load(w: World, c: Calls): Option<set<string>> {
    if w.status.instances == [] then Some(w.loaded)
    else match c.target
      case Error => None
      case NotFound => None
      case Found(pod) =>
        if pod.terminating then Some(w.loaded)
        else match c.serves
          case None => None
          case Some(already) =>
            if already then Some(w.loaded) else if c.loadOk then Some(w.loaded + {pod.ip}) else None
  }

  function ServiceOk(w: World, c: Calls): bool { c.serviceGetOk && (w.service || c.serviceCreateOk) }

  /** Endpoints and phase afterwards, or None for an error. */
  function Endpoints(w: World, c: Calls): Option<(Option<seq<seq<string>>>, Phase)> {
    var phase := w.status.phase;
    if w.status.instances == [] then
      if !c.sliceGetOk || w.slice.None? || !c.sliceWriteOk then None else Some((Some([]), phase))
    else match c.endpoint
      case Error => None
      case NotFound =>
        if !c.sliceGetOk then None
        else if w.slice.None? then Some((None, phase))
        else if c.sliceWriteOk then Some((Some([]), phase)) else None
      case Found(pod) =>
        if !c.sliceGetOk then None
        else if w.slice.None? then if c.sliceWriteOk then Some((Some([[pod.ip]]), Running)) else None
        else if !Named(w.slice.value, pod.ip) then
          if c.sliceWriteOk then Some((Some([[pod.ip]]), Running)) else None
        else if !pod.terminating then Some((w.slice, Running))
        else if c.sliceWriteOk then Some((Some(Detached(w.slice.value, pod.ip)), Failed)) else None
  }

  /** A failed create writes a status of its own first. */
  function InnerFailure(w: World, phase: Phase, create: bool, c: Calls): World {
    if create
    then Persist(w, w.status.(phase := phase, conditions := w.status.conditions[IsResourceCreated := False]), c.innerStatusOk)
    else w
  }

  function Report(w: World, st: Status, phase: Phase, condition: Condition, c: Calls): (World, Verdict) {
    (Persist(w, st.(phase := phase, conditions := st.conditions[condition := False]), c.statusOk), Erred)
  }

  predicate CreatesSlice(w: World, c: Calls) {
    w.status.instances != [] && c.endpoint.Found? && c.sliceGetOk && w.slice.None?
  }

  function Publish(w: World, c: Calls): (World, Verdict) {
    match Endpoints(w, c)
    case None =>
      Report(InnerFailure(w, Failed, CreatesSlice(w, c), c), w.status, ResourceCreated, IsResourceCreated, c)
    case Some((slice, phase)) =>
      var v := w.(slice := slice);
      if phase == w.status.phase then (v, Finished)
      else (Persist(v, Status(phase, w.status.instances, w.status.conditions[IsReady := True]), c.statusOk),
            if c.statusOk then Finished else Erred)
  }

  function Deploy(w: World, c: Calls): (World, Verdict) {
    match Load(w, c)
    case None => Report(w, w.status, Bound, IsBound, c)
    case Some(loaded) =>
      var v := w.(loaded := loaded);
      if ServiceOk(v, c) then Publish(v.(service := true), c)
      else Report(InnerFailure(v, v.status.phase, c.serviceGetOk, c), v.status, ResourceCreated, IsResourceCreated, c)
  }

  function Reconciled(w: World, selector: map<string, string>, c: Calls): (World, Verdict) {
    if w.status.conditions == map[] then
      (Persist(w, Status(Pending, w.status.instances, map[IsInitialized := Unknown]), c.statusOk),
       if c.statusOk then Requeued else Erred)
    else if w.status.instances != [] then
      match c.chosen
      case NotFound => Clear(w, w.status.instances[0], c)
      case Error => (w, Erred)
      case Found(pod) => if Usable(selector, pod) then Deploy(w, c) else Clear(w, w.status.instances[0], c)
    else
      match c.listed
      case None => (w, Erred)
      case Some(pods) => if ActivePods(pods) == [] then Deploy(w, c) else Schedule(w, ActivePods(pods), c)
  }

  // --- safety: whatever the calls answer ----------------------------------------------------------------

  /** Between reconciles servers come and go, and the service or the slice may be deleted. */
  datatype Event = Reconcile(calls: Calls) | Disturb(loaded: set<string>, service: bool, keepSlice: bool)

  function After(w: World, selector: map<string, string>, e: Event): World {
    match e
    case Reconcile(c) => Reconciled(w, selector, c).0
    case Disturb(loaded, service, keep) => w.(loaded := loaded, service := service, slice := if keep then w.slice else None)
  }

  function Run(w: World, selector: map<string, string>, events: seq<Event>): World {
    if events == [] then w else After(Run(w, selector, events[..|events| - 1]), selector, events[|events| - 1])
  }

  predicate Initial(w: World) { w.status == Status(Fresh, [], map[]) && w.slice.None? }

  predicate ReadyTrue(st: Status) { IsReady in st.conditions && st.conditions[IsReady] == True }

  predicate StatusOk(st: Status) {
    && |st.instances| <= 1
    && (st.instances != [] ==> IsScheduled in st.conditions)
    && (st.phase == Running ==> ReadyTrue(st))
  }

  predicate SliceOk(slice: Option<seq<seq<string>>>) {
    slice.Some? ==> slice.value == [] || (|slice.value| == 1 && |slice.value[0]| == 1)
  }

  predicate Inv(w: World) { StatusOk(w.status) && SliceOk(w.slice) }

  lemma SingletonWithout(xs: seq<string>, x: string)
    requires |xs| <= 1
    ensures Without(xs, x) == if xs == [x] then [] else xs
  {
    if |xs| == 1 { assert xs[..0] == [] && xs == [xs[0]]; }
  }

  lemma NamedAlone(endpoints: seq<seq<string>>, ip: string)
    requires SliceOk(Some(endpoints)) && Named(endpoints, ip)
    ensures endpoints == [[ip]]
  {
    assert endpoints[0] == [ip];
  }

  lemma DetachedOk(endpoints: seq<seq<string>>, ip: string)
    requires SliceOk(Some(endpoints)) && Named(endpoints, ip)
    ensures Detached(endpoints, ip) == []
  {
    NamedAlone(endpoints, ip);
    assert endpoints[..0] == [] && endpoints[0] == [ip];
    SingletonWithout([ip], ip);
  }

  lemma PublishKeeps(w: World, c: Calls)
    requires Inv(w)
    ensures Inv(Publish(w, c).0)
  {
    if Endpoints(w, c).Some? && w.slice.Some? && c.endpoint.Found? && Named(w.slice.value, c.endpoint.pod.ip) {
      DetachedOk(w.slice.value, c.endpoint.pod.ip);
    }
  }

  lemma DeployKeeps(w: World, c: Calls)
    requires Inv(w)
    ensures Inv(Deploy(w, c).0)
  {
    if Load(w, c).Some? { PublishKeeps(w.(loaded := Load(w, c).value, service := true), c); }
  }

  lemma ReconcileKeeps(w: World, selector: map<string, string>, c: Calls)
    requires Inv(w)
    ensures Inv(Reconciled(w, selector, c).0)
  {
    if w.status.instances != [] { SingletonWithout(w.status.instances, w.status.instances[0]); }
    DeployKeeps(w, c);
  }

  /** Every run keeps at most one instance and at most one address in the slice. */
  lemma {:induction false} AtMostOne(w: World, selector: map<string, string>, events: seq<Event>)
    requires Initial(w)
    ensures Inv(Run(w, selector, events))
    ensures |Run(w, selector, events).status.instances| <= 1
  {
    if events != [] {
      AtMostOne(w, selector, events[..|events| - 1]);
      if events[|events| - 1].Reconcile? {
        ReconcileKeeps(Run(w, selector, events[..|events| - 1]), selector, events[|events| - 1].calls);
      }
    }
  }

  // --- what each answer leads to ------------------------------------------------------------------------

  /** The first instance is there, carries the selector's labels, is ready and is not being deleted. */
  predicate HasPod(w: World, selector: map<string, string>, c: Calls) {
    && w.status.conditions != map[] && w.status.instances != [] && c.chosen.Found?
    && (forall k :: k in selector ==> k in c.chosen.pod.labels && c.chosen.pod.labels[k] == selector[k])
    && c.chosen.pod.ready && !c.chosen.pod.terminating
  }

  /** There is no instance, and nothing to schedule one on. */
  predicate NoPod(w: World, c: Calls) {
    && w.status.conditions != map[] && w.status.instances == [] && c.listed.Some?
    && forall i :: 0 <= i < |c.listed.value| ==> !c.listed.value[i].ready || c.listed.value[i].terminating
  }

  lemma NothingActive(pods: seq<Pod>)
    ensures ActivePods(pods) == [] <==> forall i :: 0 <= i < |pods| ==> !pods[i].ready || pods[i].terminating
  {
    ActivePodsExact(pods);
    if ActivePods(pods) != [] {
      assert ActivePods(pods)[0] in ActivePods(pods);
      var i :| 0 <= i < |pods| && pods[i] == ActivePods(pods)[0];
    }
    if i :| 0 <= i < |pods| && pods[i].ready && !pods[i].terminating { assert pods[i] in ActivePods(pods); }
  }

  /** Only these two get as far as loading; in every other case no more than the status changes. */
  lemma Paths(w: World, selector: map<string, string>, c: Calls)
    ensures HasPod(w, selector, c) || NoPod(w, c) ==> Reconciled(w, selector, c) == Deploy(w, c)
    ensures !HasPod(w, selector, c) && !NoPod(w, c) ==>
      var v := Reconciled(w, selector, c).0; v == w.(status := v.status) && v.status.phase in {w.status.phase, Pending, Scheduled}
  {
    if c.listed.Some? { NothingActive(c.listed.value); }
  }

  /** A call that loading the adapter needs failed. */
  predicate LoadingFails(w: World, c: Calls) {
    w.status.instances != [] &&
    (!c.target.Found? || (!c.target.pod.terminating && (c.serves == None || (c.serves == Some(false) && !c.loadOk))))
  }

  predicate ServiceFails(w: World, c: Calls) { !c.serviceGetOk || (!w.service && !c.serviceCreateOk) }

  /** The slice has to be written: it names nothing it should, or something it should not. */
  predicate SliceWritten(w: World, c: Calls) {
    if w.status.instances == [] || c.endpoint == NotFound then w.slice.Some?
    else c.endpoint.Found? && (w.slice.None? || !Named(w.slice.value, c.endpoint.pod.ip) || c.endpoint.pod.terminating)
  }

  predicate SliceFails(w: World, c: Calls) {
    || !c.sliceGetOk || (w.status.instances != [] && c.endpoint == Error)
    || (w.status.instances == [] && w.slice == None) || (SliceWritten(w, c) && !c.sliceWriteOk)
  }

  /** The status with a phase and a condition that is False, if it could be written. */
  function Failing(w: World, phase: Phase, condition: Condition, ok: bool): Status {
    if ok then Status(phase, w.status.instances, w.status.conditions[condition := False]) else w.status
  }

  /** A failed load is reported as Bound = False, and nothing else is touched. */
  lemma LoadingReported(w: World, selector: map<string, string>, c: Calls)
    requires HasPod(w, selector, c) && LoadingFails(w, c)
    ensures Reconciled(w, selector, c) == (w.(status := Failing(w, Bound, IsBound, c.statusOk)), Erred)
  {
  }

  lemma DeployLoads(w: World, c: Calls)
    ensures Deploy(w, c).0.loaded ==
      if w.status.instances != [] && c.target.Found? && !c.target.pod.terminating && c.serves == Some(false) && c.loadOk
      then w.loaded + {c.target.pod.ip} else w.loaded
  {
  }

  /** What is loaded afterwards: the instance's address too, if it was asked, lacked the adapter and took it. */
  lemma LoadedAfter(w: World, selector: map<string, string>, c: Calls)
    ensures var v := Reconciled(w, selector, c).0;
      if HasPod(w, selector, c) && c.target.Found? && !c.target.pod.terminating && c.serves == Some(false) && c.loadOk
      then v.loaded == w.loaded + {c.target.pod.ip} else v.loaded == w.loaded
  {
    Paths(w, selector, c);
    DeployLoads(w, c);
  }

  /** An adapter only becomes Running where it is loaded: it was there, it was taken, or its pod is being deleted. */
  lemma RunningMeansLoaded(w: World, selector: map<string, string>, c: Calls)
    requires w.status.phase != Running && Reconciled(w, selector, c).0.status.phase == Running
    ensures HasPod(w, selector, c) && c.target.Found? && c.endpoint.Found?
    ensures c.target.pod.terminating || c.serves == Some(true) ||
            (c.serves == Some(false) && c.loadOk && c.target.pod.ip in Reconciled(w, selector, c).0.loaded)
    ensures var v := Reconciled(w, selector, c).0;
      v.service && v.slice.Some? && Named(v.slice.value, c.endpoint.pod.ip) && ReadyTrue(v.status)
  {
    Paths(w, selector, c);
    assert c.endpoint.pod.ip in [[c.endpoint.pod.ip]][0];
  }

  /** A service or slice that cannot be had is reported as ResourceCreated = False, and the slice stays as it was. */
  lemma ResourceReported(w: World, selector: map<string, string>, c: Calls)
    requires (HasPod(w, selector, c) && !LoadingFails(w, c)) || NoPod(w, c)
    requires ServiceFails(w, c) || SliceFails(w, c)
    ensures Reconciled(w, selector, c).1 == Erred
    ensures var v := Reconciled(w, selector, c).0;
      && v.slice == w.slice && v.service == (w.service || !ServiceFails(w, c))
      && (c.statusOk ==> v.status == Failing(w, ResourceCreated, IsResourceCreated, true))
    ensures var v := Reconciled(w, selector, c).0;
      !c.statusOk ==>
        if ServiceFails(w, c) then v.status == Failing(w, w.status.phase, IsResourceCreated, c.serviceGetOk && c.innerStatusOk)
        else
          var creates := w.status.instances != [] && c.endpoint.Found? && c.sliceGetOk && w.slice.None?;
          v.status == Failing(w, Failed, IsResourceCreated, creates && c.innerStatusOk)
  {
    Paths(w, selector, c);
  }

  /** What the slice names after a reconcile that met no error. */
  lemma SliceAfter(w: World, selector: map<string, string>, c: Calls, ip: string)
    requires (HasPod(w, selector, c) && !LoadingFails(w, c)) || NoPod(w, c)
    requires !ServiceFails(w, c) && !SliceFails(w, c)
    ensures var v := Reconciled(w, selector, c).0;
      v.service && (w.status.instances == [] || c.endpoint != NotFound ==> v.slice.Some?)
    ensures var v := Reconciled(w, selector, c).0;
      v.slice.Some? ==>
        (Named(v.slice.value, ip) <==>
          w.status.instances != [] && c.endpoint.Found? &&
          if w.slice.None? || !Named(w.slice.value, c.endpoint.pod.ip) then ip == c.endpoint.pod.ip
          else Named(w.slice.value, ip) && !(c.endpoint.pod.terminating && ip == c.endpoint.pod.ip))
  {
    Paths(w, selector, c);
    if c.endpoint.Found? {
      var own := c.endpoint.pod.ip;
      assert Named([[own]], ip) <==> ip == own by { assert [[own]][0] == [own]; }
      if w.slice.Some? { DetachedExact(w.slice.value, own, ip); }
    }
  }

  /** Phase and verdict of such a reconcile. */
  lemma PhaseAfter(w: World, selector: map<string, string>, c: Calls)
    requires (HasPod(w, selector, c) && !LoadingFails(w, c)) || NoPod(w, c)
    requires !ServiceFails(w, c) && !SliceFails(w, c)
    ensures var (v, verdict) := Reconciled(w, selector, c);
      var phase :=
        if w.status.instances == [] || c.endpoint == NotFound then w.status.phase
        else if w.slice.Some? && Named(w.slice.value, c.endpoint.pod.ip) && c.endpoint.pod.terminating then Failed
        else Running;
      if phase == w.status.phase then v.status == w.status && verdict == Finished
      else if c.statusOk then
        v.status == Status(phase, w.status.instances, w.status.conditions[IsReady := True]) && verdict == Finished
      else v.status == w.status && verdict == Erred
  {
    Paths(w, selector, c);
  }

  /** An instance that is gone or unfit is dropped from the list, unless a condition to update is missing. */
  lemma StaleDropped(w: World, selector: map<string, string>, c: Calls)
    requires w.status.conditions != map[] && w.status.instances != [] && c.chosen != Error && !HasPod(w, selector, c)
    ensures var (v, verdict) := Reconciled(w, selector, c);
      if IsScheduled !in w.status.conditions || IsReady !in w.status.conditions then v == w && verdict == Crashed
      else if !c.statusOk then v == w && verdict == Erred
      else
        && verdict == Finished && v == w.(status := v.status) && v.status.phase == Pending
        && v.status.conditions == w.status.conditions[IsFailed := True][IsScheduled := False][IsReady := False]
        && forall x :: x in v.status.instances <==> x in w.status.instances && x != w.status.instances[0]
  {
    WithoutExact(w.status.instances, w.status.instances[0]);
  }

  /** Without an instance one of the ready pods listed is taken. */
  lemma ScheduledOnActive(w: World, selector: map<string, string>, c: Calls)
    requires w.status.conditions != map[] && w.status.instances == [] && c.listed.Some? && !NoPod(w, c)
    ensures var (v, verdict) := Reconciled(w, selector, c);
      if !c.pickOk || !c.statusOk then v == w && verdict == Erred
      else
        && verdict == Requeued && v == w.(status := v.status) && v.status.phase == Scheduled
        && v.status.conditions == w.status.conditions[IsScheduled := True] && |v.status.instances| == 1
        && exists pod :: pod in c.listed.value && pod.ready && !pod.terminating && pod.name == v.status.instances[0]
  {
    NothingActive(c.listed.value);
    ActivePodsExact(c.listed.value);
    var active := ActivePods(c.listed.value);
    assert active[c.pick % |active|] in active;
  }

  /** The first reconcile only marks the adapter, and a read that fails changes nothing. */
  lemma FirstAndFailedReads(w: World, selector: map<string, string>, c: Calls)
    ensures w.status.conditions == map[] ==> var (v, verdict) := Reconciled(w, selector, c);
      if c.statusOk
      then verdict == Requeued && v == w.(status := Status(Pending, w.status.instances, map[IsInitialized := Unknown]))
      else verdict == Erred && v == w
    ensures w.status.conditions != map[] && (if w.status.instances != [] then c.chosen == Error else c.listed == None) ==>
      Reconciled(w, selector, c) == (w, Erred)
  {
  }

  // --- convergence: a cluster that stays as it is -----------------------------------------------------------

  function Lookup(pods: map<string, Pod>, name: string): Fetched {
    if name in pods then Found(pods[name]) else NotFound
  }

  predicate UsableName(pods: map<string, Pod>, selector: map<string, string>, name: string) {
    name in pods && Usable(selector, pods[name])
  }

  /** All calls succeed and report the pods as they are. */
  ghost predicate Truthful(w: World, pods: map<string, Pod>, selector: map<string, string>, c: Calls) {
    && (w.status.instances != [] ==>
          var pod := Lookup(pods, w.status.instances[0]);
          && c.chosen == c.target == c.endpoint == pod
          && (pod.Found? ==> c.serves == Some(pod.pod.ip in w.loaded)))
    && c.listed.Some?
    && (forall p :: p in c.listed.value <==> p.name in pods && pods[p.name] == p && Matches(selector, p.labels))
    && c.pickOk && c.loadOk && c.serviceGetOk && c.serviceCreateOk && c.sliceGetOk && c.sliceWriteOk && c.statusOk
  }

  ghost predicate Cluster(pods: map<string, Pod>, selector: map<string, string>) {
    && (forall n :: n in pods ==> pods[n].name == n)
    && (exists n :: UsableName(pods, selector, n))
  }

  /** Running on one usable pod, loaded there, with the slice naming exactly its address. */
  predicate Settled(w: World, pods: map<string, Pod>, selector: map<string, string>) {
    && |w.status.instances| == 1 && UsableName(pods, selector, w.status.instances[0])
    && var ip := pods[w.status.instances[0]].ip;
    && w.status.phase == Running && ReadyTrue(w.status)
    && ip in w.loaded && w.service && w.slice == Some([[ip]])
  }

  /** The instance is no longer usable, and was never reported ready. */
  predicate Wedged(w: World, pods: map<string, Pod>, selector: map<string, string>) {
    && w.status.instances != [] && !UsableName(pods, selector, w.status.instances[0])
    && IsReady !in w.status.conditions
  }

  lemma {:induction false} ActivePodsExact(pods: seq<Pod>)
    ensures forall p :: p in ActivePods(pods) <==> p in pods && Active(p)
  {
    if pods != [] {
      ActivePodsExact(pods[..|pods| - 1]);
      assert pods == pods[..|pods| - 1] + [pods[|pods| - 1]];
    }
  }

  lemma SettlesHere(w: World, pods: map<string, Pod>, selector: map<string, string>, c: Calls)
    requires Inv(w) && Truthful(w, pods, selector, c)
    requires w.status.instances != [] && UsableName(pods, selector, w.status.instances[0])
    ensures Settled(Reconciled(w, selector, c).0, pods, selector)
  {
    var ip := pods[w.status.instances[0]].ip;
    if w.slice.Some? && Named(w.slice.value, ip) { NamedAlone(w.slice.value, ip); }
  }

  lemma Schedules(w: World, pods: map<string, Pod>, selector: map<string, string>, c: Calls)
    requires Inv(w) && Cluster(pods, selector) && Truthful(w, pods, selector, c)
    requires w.status.instances == [] && w.status.conditions != map[]
    ensures var v := Reconciled(w, selector, c).0;
      Inv(v) && v.status.instances != [] && UsableName(pods, selector, v.status.instances[0])
  {
    var n :| UsableName(pods, selector, n);
    ActivePodsExact(c.listed.value);
    var active := ActivePods(c.listed.value);
    assert pods[n] in active;
    assert active[c.pick % |active|] in active;
    ReconcileKeeps(w, selector, c);
  }

  lemma Starts(w: World, pods: map<string, Pod>, selector: map<string, string>, c: Calls)
    requires Inv(w) && Truthful(w, pods, selector, c) && !Wedged(w, pods, selector)
    requires w.status.conditions == map[] || w.status.instances != []
    ensures var v := Reconciled(w, selector, c).0;
      Settled(v, pods, selector) || (Inv(v) && v.status.instances == [] && v.status.conditions != map[])
  {
    ReconcileKeeps(w, selector, c);
    if w.status.conditions == map[] {
      assert IsInitialized in Reconciled(w, selector, c).0.status.conditions;
    } else if UsableName(pods, selector, w.status.instances[0]) {
      SettlesHere(w, pods, selector, c);
    } else {
      SingletonWithout(w.status.instances, w.status.instances[0]);
      assert w.status.instances == [w.status.instances[0]];
      assert IsReady in Reconciled(w, selector, c).0.status.conditions;
    }
  }

  /** A settled adapter is a fixed point. */
  lemma SettledStays(w: World, pods: map<string, Pod>, selector: map<string, string>, c: Calls)
    requires Settled(w, pods, selector) && Truthful(w, pods, selector, c)
    ensures Reconciled(w, selector, c) == (w, Finished)
  {
    var ip := pods[w.status.instances[0]].ip;
    assert ip in w.slice.value[0];
    assert Named(w.slice.value, ip);
  }

  /** The code dereferences the missing Ready condition, so nothing is ever written again. */
  lemma WedgedStays(w: World, pods: map<string, Pod>, selector: map<string, string>, c: Calls)
    requires Inv(w) && Wedged(w, pods, selector) && Truthful(w, pods, selector, c)
    ensures Reconciled(w, selector, c) == (w, Crashed)
  {
  }

  /** Three reconciles settle the adapter, exactly when it is not wedged. */
  lemma Converges(w: World, pods: map<string, Pod>, selector: map<string, string>, c1: Calls, c2: Calls, c3: Calls)
    requires Inv(w) && Cluster(pods, selector) && Truthful(w, pods, selector, c1)
    requires Truthful(Reconciled(w, selector, c1).0, pods, selector, c2)
    requires Truthful(Reconciled(Reconciled(w, selector, c1).0, selector, c2).0, pods, selector, c3)
    ensures Settled(Reconciled(Reconciled(Reconciled(w, selector, c1).0, selector, c2).0, selector, c3).0, pods, selector)
            <==> !Wedged(w, pods, selector)
  {
    var w1 := Reconciled(w, selector, c1).0;
    var w2 := Reconciled(w1, selector, c2).0;
    if Wedged(w, pods, selector) {
      WedgedStays(w, pods, selector, c1);
      WedgedStays(w, pods, selector, c2);
      WedgedStays(w, pods, selector, c3);
    } else if w.status.conditions != map[] && w.status.instances == [] {
      Schedules(w, pods, selector, c1);
      SettlesHere(w1, pods, selector, c2);
      SettledStays(w2, pods, selector, c3);
    } else {
      Starts(w, pods, selector, c1);
      if Settled(w1, pods, selector) {
        SettledStays(w1, pods, selector, c2);
        SettledStays(w1, pods, selector, c3);
      } else {
        Schedules(w1, pods, selector, c2);
        SettlesHere(w2, pods, selector, c3);
      }
    }
  }

  /**
   * Wedging happens: scheduled on "a", which disappears before the adapter was ever ready, while "b" is
   * usable and every call succeeds.
   */
  lemma WedgeReached() returns (w: World, events: seq<Event>, pods: map<string, Pod>)
    ensures Initial(w) && Cluster(pods, map[])
    ensures Wedged(Run(w, map[], events), pods, map[])
  {
    var a, b := Pod("a", "10.0.0.1", map[], true, false), Pod("b", "10.0.0.2", map[], true, false);
    var c := Calls(NotFound, NotFound, NotFound, Some([a]), 0, true, Some(false), true,
                   true, true, true, true, true, true);
    w, pods := World(Status(Fresh, [], map[]), {}, false, None), map["b" := b];
    events := [Reconcile(c), Reconcile(c)];
    assert events[..1] == [Reconcile(c)] && events[..1][..0] == [];
    var w1 := Reconciled(w, map[], c).0;
    assert Run(w, map[], events[..1]) == w1;
    assert IsInitialized in w1.status.conditions;
    assert [a][..0] == [];
    assert ActivePods([a]) == [a];
    assert c.pick % 1 == 0;
    var w2 := Reconciled(w1, map[], c).0;
    assert w2.status.instances == ["a"] && IsReady !in w2.status.conditions;
    assert UsableName(pods, map[], "b");
  }

  // --- the lists the code rebuilds ---------------------------------------------------------------------------

  lemma {:induction false} WithoutExact(xs: seq<string>, x: string)
    ensures forall y :: y in Without(xs, x) <==> y in xs && y != x
  {
    if xs != [] {
      WithoutExact(xs[..|xs| - 1], x);
      assert xs == xs[..|xs| - 1] + [xs[|xs| - 1]];
    }
  }

  lemma NamedSplit(endpoints: seq<seq<string>>, last: seq<string>, ip: string)
    ensures Named(endpoints + [last], ip) <==> Named(endpoints, ip) || ip in last
  {
    if Named(endpoints, ip) {
      var i :| 0 <= i < |endpoints| && ip in endpoints[i];
      assert ip in (endpoints + [last])[i];
    }
    if ip in last { assert ip in (endpoints + [last])[|endpoints|]; }
  }

  /** Detaching removes one address and no other. */
  lemma {:induction false} DetachedExact(endpoints: seq<seq<string>>, ip: string, other: string)
    ensures Named(Detached(endpoints, ip), other) <==> Named(endpoints, other) && other != ip
  {
    if endpoints != [] {
      var front, last := endpoints[..|endpoints| - 1], endpoints[|endpoints| - 1];
      DetachedExact(front, ip, other);
      assert endpoints == front + [last];
      NamedSplit(front, last, other);
      NamedSplit(Detached(front, ip), Without(last, ip), other);
      WithoutExact(last, ip);
    }
  }

  method RemoveInstanceFromList(xs: seq<string>, x: string) returns (kept: seq<string>)
    ensures kept == Without(xs, x)
  {
    kept := [];
    for i := 0 to |xs|
      invariant kept == Without(xs[..i], x)
    {
      assert xs[..i + 1][..i] == xs[..i];
      if xs[i] != x { kept := kept + [xs[i]]; }
    }
    assert xs[..|xs|] == xs;
  }

  method FilterActive(pods: seq<Pod>) returns (active: seq<Pod>)
    ensures active == ActivePods(pods)
  {
    active := [];
    for i := 0 to |pods|
      invariant active == ActivePods(pods[..i])
    {
      assert pods[..i + 1][..i] == pods[..i];
      if pods[i].ready && !pods[i].terminating { active := active + [pods[i]]; }
    }
    assert pods[..|pods|] == pods;
  }

  method FindAddress(endpoints: seq<seq<string>>, ip: string) returns (found: bool)
    ensures found <==> Named(endpoints, ip)
  {
    for i := 0 to |endpoints|
      invariant forall k :: 0 <= k < i ==> ip !in endpoints[k]
    {
      for j := 0 to |endpoints[i]|
        invariant ip !in endpoints[i][..j]
      {
        if endpoints[i][j] == ip { return true; }
      }
      assert endpoints[i][..|endpoints[i]|] == endpoints[i];
    }
    return false;
  }

  method Detach(endpoints: seq<seq<string>>, ip: string) returns (updated: seq<seq<string>>)
    ensures updated == Detached(endpoints, ip)
  {
    updated := [];
    for i := 0 to |endpoints|
      invariant updated == Detached(endpoints[..i], ip)
    {
      var remove, kept := false, [];
      for j := 0 to |endpoints[i]|
        invariant kept == Without(endpoints[i][..j], ip) && (remove <==> ip in endpoints[i][..j])
      {
        assert endpoints[i][..j + 1][..j] == endpoints[i][..j];
        if endpoints[i][j] == ip { remove := true; } else { kept := kept + [endpoints[i][j]]; }
      }
      assert endpoints[i][..|endpoints[i]|] == endpoints[i];
      assert endpoints[..i + 1][..i] == endpoints[..i];
      if !remove || |kept| > 0 { updated := updated + [kept]; }
    }
    assert endpoints[..|endpoints|] == endpoints;
  }

  // --- the reconciler -------------------------------------------------------------------------------------------

  /** `stored` is the status the API server holds, `status` the copy a reconcile works on. */
  class Reconciler {
    var stored: Status
    var status: Status
    var loaded: set<string>
    var service: bool
    var slice: Option<seq<seq<string>>>

    constructor (w: World)
      ensures Now() == w && status == stored
    {
      stored, status, loaded, service, slice := w.status, w.status, w.loaded, w.service, w.slice;
    }

    ghost function Now(): World
      reads this
    {
      World(stored, loaded, service, slice)
    }

    /** Sets the condition in the copy, then writes the copy back if the call succeeds. */
    method UpdateStatus(condition: Condition, truth: Truth, ok: bool)
      modifies this`status, this`stored
      ensures status == old(status).(conditions := old(status).conditions[condition := truth])
      ensures stored == if ok then status else old(stored)
    {
      status := status.(conditions := status.conditions[condition := truth]);
      if ok { stored := status; }
    }

    method ClearInstanceList(stale: string, c: Calls) returns (verdict: Verdict)
      requires status == stored
      modifies this`status, this`stored
      ensures (Now(), verdict) == Clear(old(Now()), stale, c)
    {
      var kept := RemoveInstanceFromList(status.instances, stale);
      status := status.(instances := kept, phase := Pending);
      if IsScheduled !in status.conditions || IsReady !in status.conditions { return Crashed; }
      status := status.(conditions := status.conditions[IsFailed := True][IsScheduled := False][IsReady := False]);
      if c.statusOk { stored := status; }
      verdict := if c.statusOk then Finished else Erred;
    }

    method ReconcileLoading(c: Calls) returns (ok: bool)
      requires status == stored
      modifies this`loaded
      ensures ok <==> Load(old(Now()), c).Some?
      ensures loaded == if ok then Load(old(Now()), c).value else old(loaded)
    {
      if status.instances == [] { return true; }
      if !c.target.Found? { return false; }
      if c.target.pod.terminating { return true; }
      if c.serves.None? { return false; }
      if c.serves.value { return true; }
      if c.loadOk { loaded := loaded + {c.target.pod.ip}; }
      ok := c.loadOk;
    }

    method ReconcileService(c: Calls) returns (ok: bool)
      requires status == stored
      modifies this`service, this`status, this`stored
      ensures ok <==> ServiceOk(old(Now()), c)
      ensures ok ==> service && status == old(status) && stored == old(stored)
      ensures !ok ==> Now() == InnerFailure(old(Now()), old(status).phase, c.serviceGetOk, c)
      ensures status.instances == old(status).instances
      ensures status.conditions[IsResourceCreated := False] == old(status).conditions[IsResourceCreated := False]
    {
      if !c.serviceGetOk { return false; }
      if service { return true; }
      if !c.serviceCreateOk {
        UpdateStatus(IsResourceCreated, False, c.innerStatusOk);
        return false;
      }
      service := true;
      ok := true;
    }

    /** Clears the endpoints of the slice, which must exist. */
    method ResetSlice(c: Calls) returns (ok: bool)
      requires slice.Some?
      modifies this`slice
      ensures ok == c.sliceWriteOk && slice == if ok then Some([]) else old(slice)
    {
      if c.sliceWriteOk { slice := Some([]); }
      ok := c.sliceWriteOk;
    }

    method ReconcileEndpointSlice(c: Calls) returns (ok: bool)
      requires status == stored
      modifies this`slice, this`status, this`stored
      ensures ok <==> Endpoints(old(Now()), c).Some?
      ensures ok ==> stored == old(stored) && slice == Endpoints(old(Now()), c).value.0
      ensures ok ==> status == old(status).(phase := Endpoints(old(Now()), c).value.1)
      ensures !ok ==> Now() == InnerFailure(old(Now()), Failed, CreatesSlice(old(Now()), c), c)
      ensures status.instances == old(status).instances
      ensures status.conditions[IsResourceCreated := False] == old(status).conditions[IsResourceCreated := False]
    {
      if status.instances == [] {
        if !c.sliceGetOk || slice.None? { return false; }
        ok := ResetSlice(c);
        return;
      }
      if c.endpoint.Error? || !c.sliceGetOk { return false; }
      if c.endpoint.NotFound? {
        if slice.None? { return true; }
        ok := ResetSlice(c);
        return;
      }
      ok := PointAt(c.endpoint.pod, c);
    }

    /** The branch for a pod that was fetched. */
    method PointAt(pod: Pod, c: Calls) returns (ok: bool)
      requires status == stored && status.instances != [] && c.endpoint == Found(pod) && c.sliceGetOk
      modifies this`slice, this`status, this`stored
      ensures ok <==> Endpoints(old(Now()), c).Some?
      ensures ok ==> stored == old(stored) && slice == Endpoints(old(Now()), c).value.0
      ensures ok ==> status == old(status).(phase := Endpoints(old(Now()), c).value.1)
      ensures !ok ==> Now() == InnerFailure(old(Now()), Failed, CreatesSlice(old(Now()), c), c)
      ensures status.instances == old(status).instances
      ensures status.conditions[IsResourceCreated := False] == old(status).conditions[IsResourceCreated := False]
    {
      if slice.None? {
        if !c.sliceWriteOk {
          status := status.(phase := Failed);
          UpdateStatus(IsResourceCreated, False, c.innerStatusOk);
          return false;
        }
        slice, status := Some([[pod.ip]]), status.(phase := Running);
        return true;
      }
      var found := FindAddress(slice.value, pod.ip);
      if !found {
        if !c.sliceWriteOk { return false; }
        slice, status := Some([[pod.ip]]), status.(phase := Running);
      } else if pod.terminating {
        var updated := Detach(slice.value, pod.ip);
        if !c.sliceWriteOk { return false; }
        slice, status := Some(updated), status.(phase := Failed);
      } else {
        status := status.(phase := Running);
      }
      ok := true;
    }

    /** Steps 2 to 4 and the final status write. */
    method Deploys(c: Calls) returns (verdict: Verdict)
      requires status == stored
      modifies this
      ensures (Now(), verdict) == Deploy(old(Now()), c)
    {
      var before := status.phase;
      var ok := ReconcileLoading(c);
      if !ok {
        status := status.(phase := Bound);
        UpdateStatus(IsBound, False, c.statusOk);
        return Erred;
      }
      ok := ReconcileService(c);
      if ok { ok := ReconcileEndpointSlice(c); }
      if !ok {
        status := status.(phase := ResourceCreated);
        UpdateStatus(IsResourceCreated, False, c.statusOk);
        return Erred;
      }
      if status.phase != before {
        UpdateStatus(IsReady, True, c.statusOk);
        return if c.statusOk then Finished else Erred;
      }
      verdict := Finished;
    }

    method DoReconcile(selector: map<string, string>, c: Calls) returns (verdict: Verdict)
      modifies this
      ensures (Now(), verdict) == Reconciled(old(Now()), selector, c)
    {
      status := stored;
      if |status.conditions| == 0 {
        status := status.(phase := Pending);
        UpdateStatus(IsInitialized, Unknown, c.statusOk);
        return if c.statusOk then Requeued else Erred;
      }
      if status.instances != [] {
        if c.chosen.Error? { return Erred; }
        if c.chosen.NotFound? || !Usable(selector, c.chosen.pod) {
          verdict := ClearInstanceList(status.instances[0], c);
          return;
        }
      } else {
        if c.listed.None? { return Erred; }
        var active := FilterActive(c.listed.value);
        if active != [] {
          if !c.pickOk { return Erred; }
          status := status.(phase := Scheduled, instances := status.instances + [active[c.pick % |active|].name]);
          UpdateStatus(IsScheduled, True, c.statusOk);
          return if c.statusOk then Requeued else Erred;
        }
      }
      verdict := Deploys(c);
    }
  }
}
