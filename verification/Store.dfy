/**
 * The cache: its pods with their spare, its models with theirs, and the informer handlers that update them,
 * one at a time. The handlers are proved against the functions on a `View` of CacheSpec.
 */
module CacheStore {
  import opened Collections
  import opened PodArrays
  import opened Registries
  import opened CacheSpec
  import opened PodTables
  import opened ModelTables

  class Store {
    const metaPods: PodTable
    const metaModels: ModelTable

    /** The two tables are right and share no object. */
    ghost predicate Valid()
      reads metaPods, metaPods.Repr, metaModels, metaModels.Repr
    {
      metaPods.Valid() && metaModels.Valid() && metaPods.Repr !! metaModels.Repr
    }

    /** What the entries show. */
    ghost function Shown(): View
      reads metaPods, metaModels
    {
      View(metaPods.pods, metaPods.models, metaModels.index)
    }

    ghost function Repr(): set<object>
      reads metaPods, metaModels
    {
      metaPods.Repr + metaModels.Repr
    }

    /** Whatever a table holds it held before, or it is new. */
    twostate predicate GrewPods()
      reads metaPods
    {
      forall o {:trigger o in metaPods.Repr} :: o in metaPods.Repr ==> o in old(metaPods.Repr) || fresh(o)
    }

    twostate predicate GrewModels()
      reads metaModels
    {
      forall o {:trigger o in metaModels.Repr} :: o in metaModels.Repr ==> o in old(metaModels.Repr) || fresh(o)
    }

    twostate predicate Grew()
      reads metaPods, metaModels
    {
      GrewPods() && GrewModels()
    }

    constructor ()
      ensures Valid() && fresh(Repr()) && Shown() == EMPTY_VIEW
    {
      metaPods := new PodTable();
      metaModels := new ModelTable();
    }

    /** addPodLocked: an existing pod keeps its object; the new object stays in the spare. */
    method AddPodLocked(pod: PodObject)
      requires Valid()
      modifies metaPods.Repr
      ensures Valid() && GrewPods() && metaModels.Repr == old(metaModels.Repr) && Shown() == AddPod(old(Shown()), pod)
    {
      metaPods.Add(pod);
    }

    method EnsureModel(model: string)
      requires Valid()
      modifies metaModels.Repr
      ensures Valid() && GrewModels() && metaPods.Repr == old(metaPods.Repr) && model in Shown().index
      ensures Shown() == WithModel(old(Shown()), model)
    {
      metaModels.Ensure(model);
    }

    method AddModelTo(name: string, model: string)
      requires Valid() && name in Shown().models
      modifies metaPods.Repr
      ensures Valid() && GrewPods() && metaModels.Repr == old(metaModels.Repr)
      ensures Shown() == WithServed(old(Shown()), name, model)
    {
      metaPods.AddModel(name, model);
    }

    method AddPodTo(model: string, name: string)
      requires Valid() && model in Shown().index && name in Shown().pods
      modifies metaModels.Repr
      ensures Valid() && GrewModels() && metaPods.Repr == old(metaPods.Repr)
      ensures Shown() == WithListed(old(Shown()), name, model)
    {
      metaModels.AddPod(model, name, metaPods.entries[name].pod);
    }

    method ServeModel(name: string, model: string)
      requires Valid() && name in Shown().pods
      modifies metaPods.Repr, metaModels.Repr
      ensures Valid() && Grew()
      ensures model in Shown().index && Shown() == WithServed(WithModel(old(Shown()), model), name, model)
    {
      EnsureModel(model);
      AddModelTo(name, model);
    }

    method ListPod(name: string, model: string)
      requires Valid() && name in Shown().pods
      modifies metaPods.Repr, metaModels.Repr
      ensures Valid() && Grew()
      ensures Shown() == WithListed(WithServed(WithModel(old(Shown()), model), name, model), name, model)
    {
      ServeModel(name, model);
      ghost var held := metaModels.Repr;
      AddPodTo(model, name);
      forall o | o in metaModels.Repr ensures o in old(metaModels.Repr) || fresh(o) { assert o in held || fresh(o); }
    }

    /** addPodAndModelMappingLocked */
    method LinkLocked(name: string, model: string)
      requires Valid() && name in Shown().pods
      modifies metaPods.Repr, metaModels.Repr
      ensures Valid() && Grew()
      ensures Shown() == Link(old(Shown()), name, model)
    {
      LinkInSteps(Shown(), name, model);
      ListPod(name, model);
    }

    method RemovePodFrom(model: string, name: string)
      requires Valid() && model in Shown().index
      modifies metaModels.Repr
      ensures Valid() && metaModels.Repr == old(metaModels.Repr)
      ensures var v := old(Shown()); Shown() == v.(index := v.index[model := v.index[model] - {name}])
    {
      metaModels.RemovePod(model, name);
    }

    method IsUnserved(model: string) returns (unserved: bool)
      requires Valid() && model in Shown().index
      ensures unserved <==> Shown().index[model] == map[]
    {
      var left := metaModels.Count(model);
      unserved := left == 0;
    }

    method DropModel(model: string)
      requires Valid()
      modifies metaModels.Repr
      ensures Valid() && metaModels.Repr == old(metaModels.Repr)
      ensures Shown() == old(Shown()).(index := old(Shown()).index - {model})
    {
      metaModels.Drop(model);
    }

    /** The model side of deletePodAndModelMappingLocked: the last pod takes the model with it. */
    method UnlistLocked(name: string, model: string)
      requires Valid()
      modifies metaModels.Repr
      ensures Valid() && metaModels.Repr == old(metaModels.Repr) && Shown() == Unlist(old(Shown()), name, model)
    {
      if model in metaModels.entries {
        UnlistInSteps(Shown(), name, model);
        RemovePodFrom(model, name);
        var unserved := IsUnserved(model);
        if unserved { DropModel(model); }
      }
    }

    method RemoveModelFrom(name: string, model: string)
      requires Valid() && name in Shown().models
      modifies metaPods.Repr
      ensures Valid() && metaPods.Repr == old(metaPods.Repr)
      ensures Shown() == old(Shown()).(models := old(Shown()).models[name := old(Shown()).models[name] - {model}])
    {
      metaPods.RemoveModel(name, model);
    }

    /** deletePodAndModelMappingLocked with ignoreMapping 0. */
    method UnlinkLocked(name: string, model: string)
      requires Valid()
      modifies metaPods.Repr, metaModels.Repr
      ensures Valid() && metaPods.Repr == old(metaPods.Repr) && metaModels.Repr == old(metaModels.Repr)
      ensures Shown() == Unlink(old(Shown()), name, model)
    {
      if name in metaPods.entries { RemoveModelFrom(name, model); }
      UnlistLocked(name, model);
    }

    /** deletePodLocked and the array of the removed entry's models, if there was one. */
    method DeletePodLocked(name: string) returns (models: seq<string>)
      requires Valid()
      modifies metaPods.Repr
      ensures Valid() && metaPods.Repr == old(metaPods.Repr) && Shown() == ForgetPod(old(Shown()), name)
      ensures forall m :: m in models <==> m in ModelsOf(old(Shown()), name)
      ensures forall i, j :: 0 <= i < j < |models| ==> models[i] != models[j]
    {
      var e := metaPods.Remove(name);
      if e == null { return []; }
      models := metaPods.ListRemoved(e);
    }

    /** deletePodLocked and the loop over the removed entry's models, in the order of its array. */
    method RemovePodLocked(name: string)
      requires Valid()
      modifies metaPods.Repr, metaModels.Repr
      ensures Valid() && metaPods.Repr == old(metaPods.Repr) && metaModels.Repr == old(metaModels.Repr)
      ensures Shown() == RemovePod(old(Shown()), name)
    {
      var models := DeletePodLocked(name);
      ghost var base := Shown();
      ghost var done: set<string> := {};
      UnlistNone(base, name);
      for i := 0 to |models|
        invariant Valid() && metaPods.Repr == old(metaPods.Repr) && metaModels.Repr == old(metaModels.Repr)
        invariant (forall m :: m in done <==> m in models[..i]) && Shown() == UnlistSet(base, name, done)
      {
        assert models[i] !in models[..i] && models[..i + 1] == models[..i] + [models[i]];
        UnlistOneMore(base, name, done, models[i]);
        UnlistLocked(name, models[i]);
        done := done + {models[i]};
      }
      assert models[..|models|] == models;
      assert done == ModelsOf(old(Shown()), name);
    }

    method ServeLocked(pod: PodObject, model: string)
      requires Valid()
      modifies metaPods.Repr, metaModels.Repr
      ensures Valid() && Grew()
      ensures Shown() == Serve(old(Shown()), pod, model)
    {
      AddPodLocked(pod);
      LinkLocked(pod.name, model);
    }

    method OnAddPod(pod: PodObject)
      requires Valid()
      modifies metaPods.Repr, metaModels.Repr
      ensures Valid() && Grew()
      ensures Shown() == OnPodAdded(old(Shown()), pod)
    {
      if MODEL_LABEL !in pod.labels || IsWorker(pod) { return; }
      ServeLocked(pod, pod.labels[MODEL_LABEL]);
    }

    /** Removes the old mappings, if there may be any. */
    method RemoveStale(was: PodObject, stale: bool)
      requires Valid()
      modifies metaPods.Repr, metaModels.Repr
      ensures Valid() && metaPods.Repr == old(metaPods.Repr) && metaModels.Repr == old(metaModels.Repr)
      ensures Shown() == if stale then RemovePod(old(Shown()), was.name) else old(Shown())
    {
      if stale { RemovePodLocked(was.name); }
    }

    method OnUpdatePod(was: PodObject, now: PodObject)
      requires Valid()
      modifies metaPods.Repr, metaModels.Repr
      ensures Valid() && Grew()
      ensures Shown() == OnPodUpdated(old(Shown()), was, now)
    {
      var labelled, existed := MODEL_LABEL in was.labels, was.name in metaPods.entries;
      if !labelled && !existed && MODEL_LABEL !in now.labels { return; }
      RemoveStale(was, labelled || existed);
      AddAgain(was, now);
    }

    method AddAgain(was: PodObject, now: PodObject)
      requires Valid()
      modifies metaPods.Repr, metaModels.Repr
      ensures Valid() && Grew()
      ensures Shown() == AddedAgain(old(Shown()), was, now)
    {
      if IsWorker(was) || IsWorker(now) { return; }
      if MODEL_LABEL in now.labels { ServeLocked(now, now.labels[MODEL_LABEL]); }
    }

    method OnDeletePod(name: string, labelled: bool)
      requires Valid()
      modifies metaPods.Repr, metaModels.Repr
      ensures Valid() && metaPods.Repr == old(metaPods.Repr) && metaModels.Repr == old(metaModels.Repr)
      ensures Shown() == Handle(old(Shown()), PodDeleted(name, labelled))
    {
      if !labelled && name !in metaPods.entries { return; }
      RemovePodLocked(name);
    }

    /** addPodAndModelMappingLockedByName over an adapter's instances; unknown pods are skipped. */
    method LinkInstances(instances: seq<string>, model: string)
      requires Valid()
      modifies metaPods.Repr, metaModels.Repr
      ensures Valid() && Grew()
      ensures Shown() == LinkAll(old(Shown()), instances, model)
    {
      for i := 0 to |instances|
        invariant Valid() && Grew()
        invariant Shown() == LinkAll(old(Shown()), instances[..i], model)
      {
        assert instances[..i + 1][..i] == instances[..i];
        if instances[i] in metaPods.entries { LinkLocked(instances[i], model); }
      }
      assert instances[..|instances|] == instances;
    }

    method UnlinkInstances(instances: seq<string>, model: string)
      requires Valid()
      modifies metaPods.Repr, metaModels.Repr
      ensures Valid() && metaPods.Repr == old(metaPods.Repr) && metaModels.Repr == old(metaModels.Repr)
      ensures Shown() == UnlinkAll(old(Shown()), instances, model)
    {
      for i := 0 to |instances|
        invariant Valid() && metaPods.Repr == old(metaPods.Repr) && metaModels.Repr == old(metaModels.Repr)
        invariant Shown() == UnlinkAll(old(Shown()), instances[..i], model)
      {
        assert instances[..i + 1][..i] == instances[..i];
        UnlinkLocked(instances[i], model);
      }
      assert instances[..|instances|] == instances;
    }

    method OnEvent(e: Event)
      requires Valid()
      modifies metaPods.Repr, metaModels.Repr
      ensures Valid() && Grew()
      ensures Shown() == Handle(old(Shown()), e)
    {
      match e
      case PodAdded(pod) => OnAddPod(pod);
      case PodUpdated(was, now) => OnUpdatePod(was, now);
      case PodDeleted(name, labelled) => OnDeletePod(name, labelled);
      case AdapterAdded(model, instances) => LinkInstances(instances, model);
      case AdapterUpdated(om, oi, nm, ni) => UnlinkInstances(oi, om); LinkInstances(ni, nm);
      case AdapterDeleted(model, instances) => UnlinkInstances(instances, model);
    }

    // --- queries ------------------------------------------------------------------------------------------------

    method HasModel(model: string) returns (has: bool)
      requires Valid() && Mirrored(Shown())
      ensures has <==> exists p :: (p, model) in Abstract(Shown()).serves
    {
      has := model in metaModels.entries;
      QueriesAgree(Shown(), model);
    }

    /** The array of the model's registry, each serving pod once; an error when no pod serves it. */
    method ListPodsByModel(model: string) returns (arr: PodArray?)
      requires Valid() && Mirrored(Shown())
      modifies metaModels.Repr
      ensures Valid() && GrewModels() && metaPods.Repr == old(metaPods.Repr) && Shown() == old(Shown())
      ensures arr == null <==> Unserved(Abstract(Shown()), model)
      ensures arr != null ==> arr.Ok() && Permutes(multiset(arr.pods[..arr.n]), Serving(Abstract(Shown()), model))
      ensures arr != null ==> arr in metaModels.Repr && arr.pods in metaModels.Repr && Current(model, arr)
    {
      QueriesAgree(Shown(), model);
      if model !in metaModels.entries { return null; }
      arr := metaModels.ListPods(model);
    }

    /** The PodArray that the model's registry caches. */
    ghost predicate Current(model: string, arr: PodArray)
      reads metaModels, metaModels.Repr
    {
      model in metaModels.entries && metaModels.entries[model] in metaModels.Repr
      && metaModels.entries[model].pods in metaModels.Repr && metaModels.entries[model].pods.cached == arr
    }

    /** Indexing a PodArray the cache handed out, while it is current: the deployment's pods, and the cache stays right. */
    method IndexReturned(model: string, arr: PodArray, deployment: string) returns (r: seq<PodObject>)
      requires Valid() && Mirrored(Shown()) && Keyed(Shown()) && Current(model, arr)
      modifies arr, arr.pods
      ensures Valid() && ServingIn(r, Abstract(Shown()), model, deployment)
    {
      assert metaModels.Has(metaModels.entries[model]);
      r := metaModels.IndexCurrent(model, deployment);
      DeploymentServed(Shown(), model, deployment, r);
    }

    /**
     * Indexing one it handed out before the model's registry changed, the backing array being still shared: the
     * cache stays right if the snapshot is bearable.
     */
    method IndexSnapshot(model: string, older: PodArray, deployment: string) returns (r: seq<PodObject>)
      requires Valid() && model in metaModels.entries && metaModels.Stale(older)
      requires older.Ok() && older in metaModels.Repr && older.pods == metaModels.entries[model].pods.base.buf
      modifies older, older.pods
      ensures old(metaModels.Bearable(model, older)) ==> Valid()
    {
      assert metaModels.Has(metaModels.entries[model]);
      r := metaModels.IndexOlder(model, older, deployment);
    }

    /** The pods of one deployment that serve the model; an error when no pod serves it. */
    method ListPodsByDeployment(model: string, deployment: string) returns (r: Option<seq<PodObject>>)
      requires Valid() && Mirrored(Shown()) && Keyed(Shown())
      modifies metaModels.Repr
      ensures Valid() && GrewModels() && metaPods.Repr == old(metaPods.Repr) && Shown() == old(Shown())
      ensures r.None? <==> Unserved(Abstract(Shown()), model)
      ensures r.Some? ==> ServingIn(r.value, Abstract(Shown()), model, deployment)
    {
      ListedIfServed(Shown(), model);
      if model !in metaModels.entries { return None; }
      var pods := metaModels.ListByIndex(model, deployment);
      DeploymentServed(Shown(), model, deployment, pods);
      r := Some(pods);
    }

    /** The array of the pod's registry, each model it serves once; an error when the pod is unknown. */
    method ListModelsByPod(name: string) returns (names: Option<seq<string>>)
      requires Valid()
      modifies metaPods.Repr
      ensures Valid() && GrewPods() && metaModels.Repr == old(metaModels.Repr) && Shown() == old(Shown())
      ensures names.None? <==> name !in Shown().pods
      ensures names.Some? ==> ListsModels(names.value, Abstract(Shown()), name)
    {
      if name !in metaPods.entries { return None; }
      var list := metaPods.ListModels(name);
      names := Some(list);
    }

    method OnCall(call: Call) returns (a: Answer)
      requires Valid() && Mirrored(Shown()) && Keyed(Shown())
      modifies metaPods.Repr, metaModels.Repr
      ensures Valid() && Grew() && Shown() == Seen(old(Shown()), call)
      ensures Answers(Abstract(old(Shown())), call, a)
    {
      match call
      case Informed(event) =>
        OnEvent(event);
        a := Done;
      case PodsAsked(model) => a := AskPods(model);
      case DeploymentAsked(model, deployment) =>
        var pods := ListPodsByDeployment(model, deployment);
        a := Pods(pods);
      case ModelsAsked(pod) =>
        var models := ListModelsByPod(pod);
        a := Models(models);
    }

    method AskPods(model: string) returns (a: Answer)
      requires Valid() && Mirrored(Shown())
      modifies metaModels.Repr
      ensures Valid() && GrewModels() && metaPods.Repr == old(metaPods.Repr) && Shown() == old(Shown())
      ensures Answers(Abstract(Shown()), PodsAsked(model), a)
    {
      var arr := ListPodsByModel(model);
      if arr == null { return Pods(None); }
      a := Pods(Some(arr.pods[..arr.n]));
    }
  }

  /**
   * A cache started empty, then events and queries in any order: its objects show exactly the relation the events
   * amount to, and every query is answered by the relation of the events before it.
   */
  method Replay(calls: seq<Call>) returns (store: Store, answers: seq<Answer>)
    ensures store.Valid() && fresh(store.Repr())
    ensures Mirrored(store.Shown()) && Keyed(store.Shown()) && Abstract(store.Shown()) == PerformAll(EventsIn(calls))
    ensures |answers| == |calls| && Answered(calls, answers)
  {
    store := new Store();
    answers := [];
    for i := 0 to |calls|
      invariant store.Valid() && fresh(store.metaPods.Repr) && fresh(store.metaModels.Repr)
      invariant |answers| == i && store.Shown() == ViewAt(calls, i) && Answered(calls, answers)
    {
      ViewRefines(calls, i);
      SeenNext(calls, i);
      ghost var c := Abstract(store.Shown());
      var a := store.OnCall(calls[i]);
      AnsweredNext(calls, answers, a, c);
      answers := answers + [a];
    }
    assert calls[..|calls|] == calls;
    ViewRefines(calls, |calls|);
  }

  /** Pods kept under their own names, so a model's array can be indexed by deployment exactly. */
  lemma ServedConsistently(v: View, model: string, values: seq<PodObject>)
    requires Keyed(v) && Permutes(multiset(values), Serving(Abstract(v), model))
    ensures Consistent(values)
  {
    ValuesConsistent(values, Serving(Abstract(v), model));
  }
}
