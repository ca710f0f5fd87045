/**
 * The pod/model cache as a value: pods by name, the models of each pod, and the pods of each model.
 * `View` is what the heap objects of CacheStore show, and the informer handlers are functions on it.
 * `Cache` is the plain set of pods and the relation "serves" that a view should amount to.
 */
module CacheSpec {
  import opened Collections
  import opened PodArrays
  import opened Registries

  const MODEL_LABEL := "model.aibrix.ai/name"
  const NODE_TYPE := "ray.io/node-type"
  const NODE_WORKER := "worker"

  /** Pods by name, the models of each pod, and the pods of each model. */
  datatype View = View(
    pods: map<string, PodObject>,
    models: map<string, set<string>>,
    index: map<string, map<string, PodObject>>)

  /** The abstract cache: pods by name and who serves what. */
  datatype Cache = Cache(pods: map<string, PodObject>, serves: set<(string, string)>)

  function Label(p: PodObject, key: string): Option<string> {
    if key in p.labels then Some(p.labels[key]) else None
  }

  predicate IsWorker(p: PodObject) { Label(p, NODE_TYPE) == Some(NODE_WORKER) }

  // --- what the locked helpers do to a view --------------------------------------------------------

  function AddPod(v: View, pod: PodObject): View {
    if pod.name in v.pods then v
    else v.(pods := v.pods[pod.name := pod], models := v.models[pod.name := {}])
  }

  function PodsOf(v: View, model: string): map<string, PodObject> {
    if model in v.index then v.index[model] else map[]
  }

  function ModelsOf(v: View, pod: string): set<string> {
    if pod in v.models then v.models[pod] else {}
  }

  function Link(v: View, pod: string, model: string): View {
    if pod !in v.pods then v
    else v.(models := v.models[pod := ModelsOf(v, pod) + {model}],
            index := v.index[model := PodsOf(v, model)[pod := v.pods[pod]]])
  }

  /** Drops the pod from the model's list, and the model with its last pod. */
  function Unlist(v: View, pod: string, model: string): View {
    if model !in v.index then v
    else if v.index[model] - {pod} == map[] then v.(index := v.index - {model})
    else v.(index := v.index[model := v.index[model] - {pod}])
  }

  function Unlink(v: View, pod: string, model: string): View {
    var w := if pod in v.models then v.(models := v.models[pod := v.models[pod] - {model}]) else v;
    Unlist(w, pod, model)
  }

  function ForgetPod(v: View, pod: string): View {
    v.(pods := v.pods - {pod}, models := v.models - {pod})
  }

  // The three map updates of a link.

  function WithModel(v: View, model: string): View { v.(index := v.index[model := PodsOf(v, model)]) }

  function WithServed(v: View, pod: string, model: string): View
    requires pod in v.models
  {
    v.(models := v.models[pod := v.models[pod] + {model}])
  }

  function WithListed(v: View, pod: string, model: string): View
    requires pod in v.pods && model in v.index
  {
    v.(index := v.index[model := v.index[model][pod := v.pods[pod]]])
  }

  /** A link takes them in this order. */
  lemma LinkInSteps(v: View, pod: string, model: string)
    requires pod in v.pods && pod in v.models
    ensures WithListed(WithServed(WithModel(v, model), pod, model), pod, model) == Link(v, pod, model)
  {
    assert v.index[model := PodsOf(v, model)][model := PodsOf(v, model)[pod := v.pods[pod]]]
        == v.index[model := PodsOf(v, model)[pod := v.pods[pod]]];
  }

  lemma UnlistInSteps(v: View, pod: string, model: string)
    requires model in v.index
    ensures v.index[model := v.index[model] - {pod}] - {model} == v.index - {model}
  {
  }

  // --- consistency and the abstract cache --------------------------------------------------------

  /** The two indexes mirror each other, and every listed pod object is the one held by name. */
  ghost predicate Mirrored(v: View) {
    && v.pods.Keys == v.models.Keys
    && Listed(v.models, v.index)
    && Backed(v.pods, v.models, v.index)
    && (forall m :: m in v.index ==> v.index[m] != map[])
  }

  ghost predicate Listed(models: map<string, set<string>>, index: map<string, map<string, PodObject>>) {
    forall p, m :: p in models && m in models[p] ==> m in index && p in index[m]
  }

  ghost predicate Backed(pods: map<string, PodObject>, models: map<string, set<string>>,
                         index: map<string, map<string, PodObject>>) {
    forall m, p :: m in index && p in index[m] ==>
      p in pods && index[m][p] == pods[p] && p in models && m in models[p]
  }

  function Abstract(v: View): Cache {
    Cache(v.pods, set p, m | p in v.models && m in v.models[p] :: (p, m))
  }

  // --- the handlers, on a view -------------------------------------------------------------------

  /** Drops the pod from the lists of a set of models. */
  function UnlistSet(v: View, pod: string, ms: set<string>): View {
    v.(index := Dropped(v.index, pod, ms))
  }

  function Dropped(index: map<string, map<string, PodObject>>, pod: string, ms: set<string>)
    : map<string, map<string, PodObject>>
  {
    map m | m in index && (m in ms ==> index[m] - {pod} != map[]) ::
      if m in ms then index[m] - {pod} else index[m]
  }

  lemma UnlistOneMore(v: View, pod: string, ms: set<string>, m: string)
    requires m !in ms
    ensures Unlist(UnlistSet(v, pod, ms), pod, m) == UnlistSet(v, pod, ms + {m})
  {
    var a, b := Unlist(UnlistSet(v, pod, ms), pod, m).index, UnlistSet(v, pod, ms + {m}).index;
    assert forall k :: k in a <==> k in b;
    assert forall k :: k in a ==> a[k] == b[k];
    assert a == b;
  }

  lemma UnlistNone(v: View, pod: string)
    ensures UnlistSet(v, pod, {}) == v
  {
    assert UnlistSet(v, pod, {}).index == v.index;
  }

  function RemovePod(v: View, pod: string): View {
    UnlistSet(ForgetPod(v, pod), pod, ModelsOf(v, pod))
  }

  function Serve(v: View, pod: PodObject, model: string): View { Link(AddPod(v, pod), pod.name, model) }

  function LinkAll(v: View, pods: seq<string>, model: string): View {
    if pods == [] then v else Link(LinkAll(v, pods[..|pods| - 1], model), pods[|pods| - 1], model)
  }

  function UnlinkAll(v: View, pods: seq<string>, model: string): View {
    if pods == [] then v else Unlink(UnlinkAll(v, pods[..|pods| - 1], model), pods[|pods| - 1], model)
  }

  datatype Event =
    | PodAdded(pod: PodObject)
    | PodUpdated(was: PodObject, now: PodObject)
    | PodDeleted(name: string, labelled: bool)
    | AdapterAdded(model: string, instances: seq<string>)
    | AdapterUpdated(oldModel: string, oldInstances: seq<string>, newModel: string, newInstances: seq<string>)
    | AdapterDeleted(model: string, instances: seq<string>)

  function OnPodAdded(v: View, pod: PodObject): View {
    if Label(pod, MODEL_LABEL).None? || IsWorker(pod) then v
    else Serve(v, pod, Label(pod, MODEL_LABEL).value)
  }

  function AddedAgain(v: View, was: PodObject, now: PodObject): View {
    if IsWorker(was) || IsWorker(now) || Label(now, MODEL_LABEL).None? then v
    else Serve(v, now, Label(now, MODEL_LABEL).value)
  }

  function OnPodUpdated(v: View, was: PodObject, now: PodObject): View {
    AddedAgain(if Label(was, MODEL_LABEL).Some? || was.name in v.pods then RemovePod(v, was.name) else v, was, now)
  }

  function Handle(v: View, e: Event): View {
    match e
    case PodAdded(pod) => OnPodAdded(v, pod)
    case PodUpdated(was, now) => OnPodUpdated(v, was, now)
    case PodDeleted(name, labelled) => if !labelled && name !in v.pods then v else RemovePod(v, name)
    case AdapterAdded(model, instances) => LinkAll(v, instances, model)
    case AdapterUpdated(om, oi, nm, ni) => LinkAll(UnlinkAll(v, oi, om), ni, nm)
    case AdapterDeleted(model, instances) => UnlinkAll(v, instances, model)
  }

  // --- the handlers, as set operations ------------------------------------------------------------

  function PairsOf(pods: seq<string>, model: string): set<(string, string)> { set p | p in pods :: (p, model) }

  function CacheServe(c: Cache, pod: PodObject, model: string): Cache {
    Cache(if pod.name in c.pods then c.pods else c.pods[pod.name := pod], c.serves + {(pod.name, model)})
  }

  function CacheRemove(c: Cache, pod: string): Cache {
    Cache(c.pods - {pod}, set x | x in c.serves && x.0 != pod)
  }

  function CacheLink(c: Cache, pods: seq<string>, model: string): Cache {
    c.(serves := c.serves + set x | x in PairsOf(pods, model) && x.0 in c.pods)
  }

  function CacheUnlink(c: Cache, pods: seq<string>, model: string): Cache {
    c.(serves := c.serves - PairsOf(pods, model))
  }

  function Perform(c: Cache, e: Event): Cache {
    match e
    case PodAdded(pod) =>
      if Label(pod, MODEL_LABEL).None? || IsWorker(pod) then c
      else CacheServe(c, pod, Label(pod, MODEL_LABEL).value)
    case PodUpdated(was, now) =>
      var d := CacheRemove(c, was.name);
      if IsWorker(was) || IsWorker(now) || Label(now, MODEL_LABEL).None? then d
      else CacheServe(d, now, Label(now, MODEL_LABEL).value)
    case PodDeleted(name, labelled) => CacheRemove(c, name)
    case AdapterAdded(model, instances) => CacheLink(c, instances, model)
    case AdapterUpdated(om, oi, nm, ni) => CacheLink(CacheUnlink(c, oi, om), ni, nm)
    case AdapterDeleted(model, instances) => CacheUnlink(c, instances, model)
  }

  // --- refinement ---------------------------------------------------------------------------------

  lemma AddPodRefines(v: View, pod: PodObject)
    requires Mirrored(v)
    ensures Mirrored(AddPod(v, pod))
    ensures Abstract(AddPod(v, pod)).serves == Abstract(v).serves
    ensures AddPod(v, pod).pods == if pod.name in v.pods then v.pods else v.pods[pod.name := pod]
  {
  }

  lemma LinkRefines(v: View, pod: string, model: string)
    requires Mirrored(v)
    ensures Mirrored(Link(v, pod, model)) && Link(v, pod, model).pods == v.pods
    ensures Abstract(Link(v, pod, model)).serves ==
            if pod in v.pods then Abstract(v).serves + {(pod, model)} else Abstract(v).serves
  {
  }

  lemma StillListed(listed: map<string, PodObject>, pod: string, p: string)
    requires p in listed && p != pod
    ensures listed - {pod} != map[] && p in listed - {pod}
  {
    assert p in listed - {pod};
  }

  /** Dropping a pod from the lists of `ms` mirrors dropping `ms` from the pod. */
  lemma DroppedListed(was: map<string, set<string>>, now: map<string, set<string>>,
                      index: map<string, map<string, PodObject>>, pod: string, ms: set<string>)
    requires Listed(was, index)
    requires forall p, m {:trigger m in now[p]} :: p in now && m in now[p] ==> p in was && m in was[p] && (p != pod || m !in ms)
    ensures Listed(now, Dropped(index, pod, ms))
  {
    forall p, m | p in now && m in now[p]
      ensures m in Dropped(index, pod, ms) && p in Dropped(index, pod, ms)[m]
    {
      assert m in was[p] && m in index && p in index[m];
      if m in ms { StillListed(index[m], pod, p); }
    }
  }

  lemma DroppedBacked(pods: map<string, PodObject>, was: map<string, set<string>>,
                      pods': map<string, PodObject>, now: map<string, set<string>>,
                      index: map<string, map<string, PodObject>>, pod: string, ms: set<string>)
    requires Backed(pods, was, index)
    requires forall p, m :: p in pods && p in was && m in was[p] && (p != pod || m !in ms) ==>
               p in pods' && pods'[p] == pods[p] && p in now && m in now[p]
    ensures Backed(pods', now, Dropped(index, pod, ms))
  {
    var after := Dropped(index, pod, ms);
    forall m, p | m in after && p in after[m]
      ensures p in pods' && after[m][p] == pods'[p] && p in now && m in now[p]
    {
      assert m in index && p in index[m] && after[m][p] == index[m][p];
    }
  }

  lemma UnlinkDrops(v: View, pod: string, model: string)
    ensures Unlink(v, pod, model).index == Dropped(v.index, pod, {model})
  {
    UnlistNone(v, pod);
    UnlistOneMore(v, pod, {}, model);
    assert {} + {model} == {model};
  }

  lemma UnlinkPairs(v: View, pod: string, model: string)
    ensures var w := Unlink(v, pod, model);
      && w.models.Keys == v.models.Keys
      && (forall p, m :: p in v.models ==> (m in w.models[p] <==> m in v.models[p] && (p, m) != (pod, model)))
      && Abstract(w).serves == Abstract(v).serves - {(pod, model)}
  {
  }

  lemma UnlinkRefines(v: View, pod: string, model: string)
    requires Mirrored(v)
    ensures Mirrored(Unlink(v, pod, model)) && Unlink(v, pod, model).pods == v.pods
    ensures Abstract(Unlink(v, pod, model)).serves == Abstract(v).serves - {(pod, model)}
  {
    var models' := Unlink(v, pod, model).models;
    UnlinkPairs(v, pod, model);
    UnlinkDrops(v, pod, model);
    DroppedListed(v.models, models', v.index, pod, {model});
    DroppedBacked(v.pods, v.models, v.pods, models', v.index, pod, {model});
  }

  lemma RemoveRefines(v: View, pod: string)
    requires Mirrored(v)
    ensures Mirrored(RemovePod(v, pod)) && Abstract(RemovePod(v, pod)) == CacheRemove(Abstract(v), pod)
  {
    var w := RemovePod(v, pod);
    assert forall p :: p in w.models <==> p in v.models && p != pod;
    DroppedListed(v.models, w.models, v.index, pod, ModelsOf(v, pod));
    DroppedBacked(v.pods, v.models, w.pods, w.models, v.index, pod, ModelsOf(v, pod));
  }

  lemma {:induction false} LinkAllRefines(v: View, pods: seq<string>, model: string)
    requires Mirrored(v)
    ensures Mirrored(LinkAll(v, pods, model)) && LinkAll(v, pods, model).pods == v.pods
    ensures Abstract(LinkAll(v, pods, model)) == CacheLink(Abstract(v), pods, model)
  {
    if pods != [] {
      var init := pods[..|pods| - 1];
      LinkAllRefines(v, init, model);
      LinkRefines(LinkAll(v, init, model), pods[|pods| - 1], model);
      assert pods == init + [pods[|pods| - 1]];
    }
  }

  lemma {:induction false} UnlinkAllRefines(v: View, pods: seq<string>, model: string)
    requires Mirrored(v)
    ensures Mirrored(UnlinkAll(v, pods, model)) && UnlinkAll(v, pods, model).pods == v.pods
    ensures Abstract(UnlinkAll(v, pods, model)) == CacheUnlink(Abstract(v), pods, model)
  {
    if pods != [] {
      var init := pods[..|pods| - 1];
      UnlinkAllRefines(v, init, model);
      UnlinkRefines(UnlinkAll(v, init, model), pods[|pods| - 1], model);
      assert pods == init + [pods[|pods| - 1]];
    }
  }

  lemma ServeRefines(v: View, pod: PodObject, model: string)
    requires Mirrored(v)
    ensures Mirrored(Serve(v, pod, model)) && Abstract(Serve(v, pod, model)) == CacheServe(Abstract(v), pod, model)
  {
    AddPodRefines(v, pod);
    LinkRefines(AddPod(v, pod), pod.name, model);
  }

  lemma RemoveAbsent(v: View, pod: string)
    requires Mirrored(v) && pod !in v.pods
    ensures CacheRemove(Abstract(v), pod) == Abstract(v)
  {
    assert v.pods - {pod} == v.pods;
  }

  lemma PodUpdatedRefines(v: View, was: PodObject, now: PodObject)
    requires Mirrored(v)
    ensures Mirrored(OnPodUpdated(v, was, now))
    ensures Abstract(OnPodUpdated(v, was, now)) == Perform(Abstract(v), PodUpdated(was, now))
  {
    var remove := Label(was, MODEL_LABEL).Some? || was.name in v.pods;
    var w := if remove then RemovePod(v, was.name) else v;
    if remove { RemoveRefines(v, was.name); } else { RemoveAbsent(v, was.name); }
    assert Mirrored(w) && Abstract(w) == CacheRemove(Abstract(v), was.name);
    if Label(now, MODEL_LABEL).Some? { ServeRefines(w, now, Label(now, MODEL_LABEL).value); }
  }

  lemma PodDeletedRefines(v: View, name: string, labelled: bool)
    requires Mirrored(v)
    ensures Mirrored(Handle(v, PodDeleted(name, labelled)))
    ensures Abstract(Handle(v, PodDeleted(name, labelled))) == CacheRemove(Abstract(v), name)
  {
    if name in v.pods || labelled { RemoveRefines(v, name); } else { RemoveAbsent(v, name); }
  }

  /** Every handler keeps the indexes mirrored and is the matching set operation. */
  lemma HandleRefines(v: View, e: Event)
    requires Mirrored(v)
    ensures Mirrored(Handle(v, e)) && Abstract(Handle(v, e)) == Perform(Abstract(v), e)
  {
    match e
    case PodAdded(pod) =>
      if Label(pod, MODEL_LABEL).Some? { ServeRefines(v, pod, Label(pod, MODEL_LABEL).value); }
    case PodUpdated(was, now) => PodUpdatedRefines(v, was, now);
    case PodDeleted(name, labelled) => PodDeletedRefines(v, name, labelled);
    case AdapterAdded(model, instances) => LinkAllRefines(v, instances, model);
    case AdapterUpdated(om, oi, nm, ni) =>
      UnlinkAllRefines(v, oi, om);
      LinkAllRefines(UnlinkAll(v, oi, om), ni, nm);
    case AdapterDeleted(model, instances) => UnlinkAllRefines(v, instances, model);
  }

  const EMPTY_VIEW := View(map[], map[], map[])
  const EMPTY_CACHE := Cache(map[], {})

  function HandleAll(events: seq<Event>): View {
    if events == [] then EMPTY_VIEW else Handle(HandleAll(events[..|events| - 1]), events[|events| - 1])
  }

  function PerformAll(events: seq<Event>): Cache {
    if events == [] then EMPTY_CACHE else Perform(PerformAll(events[..|events| - 1]), events[|events| - 1])
  }

  /**
   * For every sequence of informer events the cache is the plain set of pods and relation the events
   * amount to, with both indexes mirroring each other.
   */
  lemma {:induction false} EventsRefine(events: seq<Event>)
    ensures Mirrored(HandleAll(events)) && Abstract(HandleAll(events)) == PerformAll(events)
  {
    if events != [] {
      EventsRefine(events[..|events| - 1]);
      HandleRefines(HandleAll(events[..|events| - 1]), events[|events| - 1]);
    }
  }

  // --- what an event changes, read off the event --------------------------------------------------------------

  predicate Maps(labels: map<string, string>, key: string, value: string) { key in labels && labels[key] == value }

  predicate RayWorker(p: PodObject) { Maps(p.labels, "ray.io/node-type", "worker") }

  /** Whether the pod of this name serves the model after the event. */
  predicate ServesAfter(c: Cache, e: Event, name: string, model: string) {
    match e
    case PodAdded(pod) =>
      || (name, model) in c.serves
      || (name == pod.name && Maps(pod.labels, "model.aibrix.ai/name", model) && !RayWorker(pod))
    case PodUpdated(was, now) =>
      || ((name, model) in c.serves && name != was.name)
      || (name == now.name && Maps(now.labels, "model.aibrix.ai/name", model) && !RayWorker(was) && !RayWorker(now))
    case PodDeleted(gone, _) => (name, model) in c.serves && name != gone
    case AdapterAdded(adapter, instances) =>
      (name, model) in c.serves || (model == adapter && name in instances && name in c.pods)
    case AdapterUpdated(om, oi, nm, ni) =>
      || ((name, model) in c.serves && !(model == om && name in oi))
      || (model == nm && name in ni && name in c.pods)
    case AdapterDeleted(adapter, instances) => (name, model) in c.serves && !(model == adapter && name in instances)
  }

  /** The object held under the name after the event: the first one added since the name was last removed. */
  function PodAfter(c: Cache, e: Event, name: string): Option<PodObject> {
    var held := if name in c.pods then Some(c.pods[name]) else None;
    match e
    case PodAdded(pod) =>
      if held.None? && name == pod.name && "model.aibrix.ai/name" in pod.labels && !RayWorker(pod) then Some(pod) else held
    case PodUpdated(was, now) =>
      if held.Some? && name != was.name then held
      else if name == now.name && "model.aibrix.ai/name" in now.labels && !RayWorker(was) && !RayWorker(now) then Some(now)
      else None
    case PodDeleted(gone, _) => if name == gone then None else held
    case _ => held
  }

  lemma PerformEffect(c: Cache, e: Event, name: string, model: string)
    ensures (name, model) in Perform(c, e).serves <==> ServesAfter(c, e, name, model)
    ensures (if name in Perform(c, e).pods then Some(Perform(c, e).pods[name]) else None) == PodAfter(c, e, name)
  {
  }

  /** Every event changes exactly the pairs and pods its labels and lists say. */
  lemma EventEffect(v: View, e: Event, name: string, model: string)
    requires Mirrored(v)
    ensures (name, model) in Abstract(Handle(v, e)).serves <==> ServesAfter(Abstract(v), e, name, model)
    ensures (if name in Handle(v, e).pods then Some(Handle(v, e).pods[name]) else None) == PodAfter(Abstract(v), e, name)
  {
    HandleRefines(v, e);
    PerformEffect(Abstract(v), e, name, model);
  }

  /** The pods that serve a model, by name. */
  ghost function Serving(c: Cache, model: string): map<string, PodObject> {
    map p | p in c.pods && (p, model) in c.serves :: c.pods[p]
  }

  /** What the query functions read off a mirrored view is what the abstract cache says. */
  lemma QueriesAgree(v: View, model: string)
    requires Mirrored(v)
    ensures model in v.index <==> exists p :: (p, model) in Abstract(v).serves
    ensures PodsOf(v, model) == Serving(Abstract(v), model)
  {
    if model in v.index {
      var p :| p in v.index[model];
      assert (p, model) in Abstract(v).serves;
    }
  }

  // --- pods are kept under their own names ------------------------------------------------------------------

  predicate Keyed(v: View) { forall p :: p in v.pods ==> v.pods[p].name == p }

  lemma {:induction false} LinkAllPods(v: View, pods: seq<string>, model: string)
    ensures LinkAll(v, pods, model).pods == v.pods
  {
    if pods != [] { LinkAllPods(v, pods[..|pods| - 1], model); }
  }

  lemma {:induction false} UnlinkAllPods(v: View, pods: seq<string>, model: string)
    ensures UnlinkAll(v, pods, model).pods == v.pods
  {
    if pods != [] { UnlinkAllPods(v, pods[..|pods| - 1], model); }
  }

  lemma HandleKeyed(v: View, e: Event)
    requires Keyed(v)
    ensures Keyed(Handle(v, e))
  {
    match e
    case AdapterAdded(model, instances) => LinkAllPods(v, instances, model);
    case AdapterUpdated(om, oi, nm, ni) => UnlinkAllPods(v, oi, om); LinkAllPods(UnlinkAll(v, oi, om), ni, nm);
    case AdapterDeleted(model, instances) => UnlinkAllPods(v, instances, model);
    case _ =>
  }

  lemma {:induction false} EventsKeyed(events: seq<Event>)
    ensures Keyed(HandleAll(events))
  {
    if events != [] {
      EventsKeyed(events[..|events| - 1]);
      HandleKeyed(HandleAll(events[..|events| - 1]), events[|events| - 1]);
    }
  }

  /** The pods of one deployment that serve a model. */
  ghost predicate ServingIn(r: seq<PodObject>, c: Cache, model: string, deployment: string) {
    forall p :: p in r <==>
      Belongs(p, deployment) && p.name in c.pods && c.pods[p.name] == p && (p.name, model) in c.serves
  }

  lemma ListedIfServed(v: View, model: string)
    requires Mirrored(v)
    ensures model in v.index <==> !Unserved(Abstract(v), model)
  {
    QueriesAgree(v, model);
  }

  /** What a deployment's slice of a model's array holds, in terms of the abstract cache. */
  lemma DeploymentServed(v: View, model: string, deployment: string, r: seq<PodObject>)
    requires Mirrored(v) && Keyed(v) && model in v.index && DeploymentOf(r, v.index[model], deployment)
    ensures ServingIn(r, Abstract(v), model, deployment)
  {
    QueriesAgree(v, model);
    assert v.index[model] == Serving(Abstract(v), model);
  }

  // --- events and queries in one run ------------------------------------------------------------------------

  datatype Call =
    | Informed(event: Event)
    | PodsAsked(model: string)
    | DeploymentAsked(model: string, deployment: string)
    | ModelsAsked(pod: string)

  datatype Answer = Done | Pods(pods: Option<seq<PodObject>>) | Models(models: Option<seq<string>>)

  ghost predicate Unserved(c: Cache, model: string) { forall p :: (p, model) !in c.serves }

  ghost predicate ListsModels(names: seq<string>, c: Cache, pod: string) {
    && (forall m :: m in names <==> (pod, m) in c.serves)
    && (forall i, j :: 0 <= i < j < |names| ==> names[i] != names[j])
  }

  /** The answer the relation gives: an error for an unserved model or an unknown pod, else the listing. */
  ghost predicate Answers(c: Cache, call: Call, a: Answer) {
    match call
    case Informed(_) => a == Done
    case PodsAsked(model) =>
      && a.Pods? && (a.pods.None? <==> Unserved(c, model))
      && (a.pods.Some? ==> Permutes(multiset(a.pods.value), Serving(c, model)))
    case DeploymentAsked(model, deployment) =>
      && a.Pods? && (a.pods.None? <==> Unserved(c, model))
      && (a.pods.Some? ==> ServingIn(a.pods.value, c, model, deployment))
    case ModelsAsked(pod) =>
      a.Models? && (a.models.None? <==> pod !in c.pods) && (a.models.Some? ==> ListsModels(a.models.value, c, pod))
  }

  function EventsIn(calls: seq<Call>): seq<Event> {
    if calls == [] then [] else
      EventsIn(calls[..|calls| - 1]) +
      (if calls[|calls| - 1].Informed? then [calls[|calls| - 1].event] else [])
  }

  function Seen(v: View, call: Call): View { if call.Informed? then Handle(v, call.event) else v }

  lemma SeenNext(calls: seq<Call>, i: nat)
    requires i < |calls|
    ensures ViewAt(calls, i + 1) == Seen(ViewAt(calls, i), calls[i])
  {
    var before := EventsIn(calls[..i]);
    assert calls[..i + 1][..i] == calls[..i];
    if calls[i].Informed? { assert (before + [calls[i].event])[..|before|] == before; } else { assert before + [] == before; }
  }

  /** The view after the events among the first calls. */
  function ViewAt(calls: seq<Call>, i: nat): View
    requires i <= |calls|
  {
    HandleAll(EventsIn(calls[..i]))
  }

  lemma ViewRefines(calls: seq<Call>, i: nat)
    requires i <= |calls|
    ensures Mirrored(ViewAt(calls, i)) && Keyed(ViewAt(calls, i))
    ensures Abstract(ViewAt(calls, i)) == PerformAll(EventsIn(calls[..i]))
  {
    EventsRefine(EventsIn(calls[..i]));
    EventsKeyed(EventsIn(calls[..i]));
  }

  /** Each answer so far is the one that the relation of the events before it gives. */
  ghost predicate Answered(calls: seq<Call>, answers: seq<Answer>) {
    && |answers| <= |calls|
    && forall i :: 0 <= i < |answers| ==> Answers(PerformAll(EventsIn(calls[..i])), calls[i], answers[i])
  }

  lemma AnsweredNext(calls: seq<Call>, answers: seq<Answer>, a: Answer, c: Cache)
    requires Answered(calls, answers) && |answers| < |calls|
    requires c == PerformAll(EventsIn(calls[..|answers|])) && Answers(c, calls[|answers|], a)
    ensures Answered(calls, answers + [a])
  {
    forall i | 0 <= i <= |answers|
      ensures Answers(PerformAll(EventsIn(calls[..i])), calls[i], (answers + [a])[i])
    {
      if i < |answers| { assert (answers + [a])[i] == answers[i]; }
    }
  }
}
