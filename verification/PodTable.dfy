/**
 * The cache's pods by name, each with the registry of its models, and the spare entry kept for the next pod.
 * The registries and their arrays are heap objects of their own; the table says which of them it holds
 * (`Repr`) and that no two entries, nor an entry and the spare, share one.
 */
module PodTables {
  import opened PodArrays
  import opened Registries

  class MetaPod {
    var pod: PodObject
    const models: Registry<string>

    constructor (pod: PodObject)
      ensures this.pod == pod && models.Ok() && models.registry == map[] && fresh(models) && fresh(models.buf)
    {
      this.pod := pod;
      models := new Registry<string>(true);
    }
  }

  /** A model is stored under its own name. */
  ghost predicate Identity(m: map<string, string>) { forall k :: k in m ==> m[k] == k }

  lemma CountedTwice(values: seq<string>, i: nat, j: nat)
    requires i < j < |values| && values[i] == values[j]
    ensures multiset(values)[values[i]] >= 2
  {
    assert values == values[..j] + values[j..];
    assert values[..j][i] in multiset(values[..j]) && values[j..][0] in multiset(values[j..]);
  }

  /** The values of an identity map, each once. */
  lemma IdentityValues(values: seq<string>, m: map<string, string>)
    requires Permutes(multiset(values), m) && Identity(m)
    ensures (forall v :: v in values <==> v in m) && (forall i, j :: 0 <= i < j < |values| ==> values[i] != values[j])
  {
    forall v ensures multiset(values)[v] == if v in m then 1 else 0 {
      assert KeysAt(m, v) == if v in m then {v} else {};
    }
    forall v ensures v in values <==> v in m { assert v in values <==> v in multiset(values); }
    forall i, j | 0 <= i < j < |values| ensures values[i] != values[j] {
      if values[i] == values[j] { CountedTwice(values, i, j); }
    }
  }

  ghost predicate Separate(e: MetaPod, f: MetaPod)
    reads e.models, f.models
  {
    e != f && e.models != f.models && e.models.buf != f.models.buf
  }

  twostate predicate Kept(e: MetaPod)
    reads e, e.models, e.models.buf
  {
    unchanged(e) && unchanged(e.models) && unchanged(e.models.buf)
  }

  /** `pods` and `models` are what the entries show. */
  class PodTable {
    var entries: map<string, MetaPod>
    var spare: MetaPod?
    ghost var Repr: set<object>
    ghost var pods: map<string, PodObject>
    ghost var models: map<string, set<string>>

    ghost predicate Has(e: MetaPod)
      reads this, Repr
    {
      e in Repr && e.models in Repr && e.models.buf in Repr
    }

    ghost predicate Members()
      reads this, Repr
    {
      this in Repr && (forall p :: p in entries ==> Has(entries[p])) && (spare != null ==> Has(spare))
    }

    /** No two entries share an entry object, a registry or an array, and none shares one with the spare. */
    ghost predicate Apart()
      requires Members()
      reads this, Repr
    {
      && (forall p, q :: p in entries && q in entries && p != q ==> Separate(entries[p], entries[q]))
      && (spare != null ==> forall p :: p in entries ==> Separate(spare, entries[p]))
    }

    /** Every registry is right, and the spare's is empty. */
    ghost predicate Sound()
      requires Members()
      reads this, Repr
    {
      && (forall p :: p in entries ==> entries[p].models.Ok() && Identity(entries[p].models.registry))
      && (spare != null ==> spare.models.Ok() && spare.models.registry == map[])
    }

    ghost predicate Shows()
      requires Members()
      reads this, Repr
    {
      && entries.Keys == pods.Keys == models.Keys
      && (forall p :: p in entries ==> entries[p].pod == pods[p] && entries[p].models.registry.Keys == models[p])
    }

    ghost predicate Valid()
      reads this, Repr
    {
      Members() && Apart() && Sound() && Shows()
    }

    constructor ()
      ensures Valid() && fresh(Repr) && pods == map[] && models == map[]
    {
      entries, spare, pods, models := map[], null, map[], map[];
      Repr := {this};
    }

    // --- a change to one entry's registry -------------------------------------------------------------------

    /** Only the registry of one entry changed, and its array only for a fresh one. */
    twostate predicate OnlyAt(name: string)
      requires old(Valid()) && name in old(entries)
      reads this, Repr
    {
      && entries == old(entries) && spare == old(spare) && Members()
      && (forall q :: q in entries && q != name ==> Kept(entries[q])) && (spare != null ==> Kept(spare))
      && (entries[name].models.buf == old(entries[name].models.buf) || fresh(entries[name].models.buf))
    }

    twostate lemma OthersKept(name: string)
      requires old(Valid()) && name in old(entries) && entries == old(entries) && spare == old(spare)
      requires forall o: object {:trigger o in old(Repr)} ::
        o in old(Repr) && o != this && o != entries[name].models && o != old(entries[name].models.buf) ==> unchanged(o)
      ensures (forall q :: q in entries && q != name ==> Kept(entries[q])) && (spare != null ==> Kept(spare))
    {
      forall q | q in entries && q != name ensures Kept(entries[q]) {
        assert old(Has(entries[q]) && Separate(entries[q], entries[name]));
      }
      if spare != null { assert old(Has(spare) && Separate(spare, entries[name])); }
    }

    /** A change confined to one entry's registry and array, which the table goes on holding. */
    twostate lemma Confined(name: string)
      requires old(Valid()) && name in old(entries) && entries == old(entries) && spare == old(spare)
      requires forall o: object {:trigger o in old(Repr)} ::
        o in old(Repr) && o != this && o != entries[name].models && o != old(entries[name].models.buf) ==> unchanged(o)
      requires old(Repr) <= Repr && entries[name].models.buf in Repr
      requires entries[name].models.buf == old(entries[name].models.buf) || fresh(entries[name].models.buf)
      ensures OnlyAt(name)
    {
      OthersKept(name);
      forall p | p in entries ensures Has(entries[p]) { assert old(Has(entries[p])); }
    }

    twostate lemma ApartKept(name: string)
      requires old(Valid()) && name in old(entries) && OnlyAt(name)
      ensures Apart()
    {
      forall p, q | p in entries && q in entries && p != q ensures Separate(entries[p], entries[q]) {
        assert old(Separate(entries[p], entries[q]));
      }
      if spare != null {
        forall p | p in entries ensures Separate(spare, entries[p]) { assert old(Separate(spare, entries[p])); }
      }
    }

    twostate lemma SoundKept(name: string)
      requires old(Valid()) && name in old(entries) && OnlyAt(name)
      requires entries[name].models.Ok() && Identity(entries[name].models.registry)
      ensures Sound()
    {
      forall p | p in entries ensures entries[p].models.Ok() && Identity(entries[p].models.registry) {
        if p != name { assert Kept(entries[p]) && old(entries[p].models.Ok()); }
      }
    }

    twostate lemma ShowsKept(name: string)
      requires old(Valid()) && name in old(entries) && OnlyAt(name)
      requires pods == old(pods) && models == old(models)[name := entries[name].models.registry.Keys]
      requires entries[name].pod == old(entries[name].pod)
      ensures Shows()
    {
      forall p | p in entries ensures entries[p].pod == pods[p] && entries[p].models.registry.Keys == models[p] {
        if p != name { assert Kept(entries[p]); }
      }
    }

    twostate lemma ValidAt(name: string)
      requires old(Valid()) && name in old(entries) && OnlyAt(name)
      requires entries[name].models.Ok() && Identity(entries[name].models.registry)
      requires pods == old(pods) && models == old(models)[name := entries[name].models.registry.Keys]
      requires entries[name].pod == old(entries[name].pod)
      ensures Valid()
    {
      ApartKept(name);
      SoundKept(name);
      ShowsKept(name);
    }

    method StoreAt(name: string, model: string)
      requires Valid() && name in entries
      modifies this`Repr, this`models, entries[name].models, entries[name].models.buf
      ensures OnlyAt(name) && Repr == old(Repr) + {entries[name].models.buf}
      ensures entries[name].models.Ok() && models == old(models)[name := entries[name].models.registry.Keys]
      ensures Identity(entries[name].models.registry)
      ensures entries[name].models.registry.Keys == old(models)[name] + {model}
    {
      entries[name].models.Store(model, model);
      Repr, models := Repr + {entries[name].models.buf}, models[name := entries[name].models.registry.Keys];
      Confined(name);
    }

    /** The pod's registry gains the model. */
    method AddModel(name: string, model: string)
      requires Valid() && name in entries
      modifies Repr
      ensures Valid() && fresh(Repr - old(Repr)) && pods == old(pods)
      ensures models == old(models)[name := old(models)[name] + {model}]
    {
      StoreAt(name, model);
      ValidAt(name);
    }

    method DeleteAt(name: string, model: string)
      requires Valid() && name in entries
      modifies this`models, entries[name].models
      ensures OnlyAt(name) && entries[name].models.Ok()
      ensures models == old(models)[name := entries[name].models.registry.Keys]
      ensures Identity(entries[name].models.registry)
      ensures entries[name].models.registry.Keys == old(models)[name] - {model}
    {
      entries[name].models.Delete(model);
      models := models[name := entries[name].models.registry.Keys];
      Confined(name);
    }

    /** The pod's registry loses the model; the pod stays. */
    method RemoveModel(name: string, model: string)
      requires Valid() && name in entries
      modifies Repr
      ensures Valid() && Repr == old(Repr) && pods == old(pods)
      ensures models == old(models)[name := old(models)[name] - {model}]
    {
      DeleteAt(name, model);
      ValidAt(name);
    }

    method ArrayAt(name: string) returns (names: seq<string>)
      requires Valid() && name in entries
      modifies this`Repr, entries[name].models, entries[name].models.buf
      ensures OnlyAt(name) && Repr == old(Repr) + {entries[name].models.buf}
      ensures entries[name].models.Ok() && entries[name].models.registry == old(entries[name].models.registry)
      ensures Permutes(multiset(names), entries[name].models.registry)
    {
      var arr, len := entries[name].models.Array();
      names := arr[..len];
      Repr := Repr + {entries[name].models.buf};
      Confined(name);
    }

    /** The array of the pod's registry: each of its models once. */
    method ListModels(name: string) returns (names: seq<string>)
      requires Valid() && name in entries
      modifies Repr
      ensures Valid() && fresh(Repr - old(Repr)) && pods == old(pods) && models == old(models)
      ensures forall m :: m in names <==> m in models[name]
      ensures forall i, j :: 0 <= i < j < |names| ==> names[i] != names[j]
    {
      names := ArrayAt(name);
      IdentityValues(names, entries[name].models.registry);
      assert models == models[name := entries[name].models.registry.Keys];
      ValidAt(name);
    }

    // --- entries that come and go ------------------------------------------------------------------------------

    /** No object the table held changed but the table itself. */
    twostate predicate Still()
      reads this, Repr
    {
      old(Repr) <= Repr && forall o: object {:trigger o in old(Repr)} :: o in old(Repr) && o != this ==> unchanged(o)
    }

    twostate lemma EntryStill(e: MetaPod)
      requires old(Has(e)) && Still()
      ensures Kept(e) && Has(e)
    {
    }

    /** Every entry is an old entry or the old spare, and the spare is the old spare unless that became an entry. */
    twostate predicate Rearranged()
      reads this
    {
      && (forall p :: p in entries ==> (p in old(entries) && entries[p] == old(entries)[p]) || (p !in old(entries) && spare == null && entries[p] == old(spare)))
      && (forall p, q :: p in entries && q in entries && p !in old(entries) && q !in old(entries) ==> p == q)
      && (spare == null || spare == old(spare))
    }

    twostate lemma RearrangedMembers()
      requires old(Valid()) && Still() && Rearranged()
      ensures Members() && (forall p :: p in entries ==> Kept(entries[p])) && (spare != null ==> Kept(spare))
    {
      forall p | p in entries ensures Has(entries[p]) && Kept(entries[p]) { EntryStill(entries[p]); }
      if spare != null { EntryStill(spare); }
    }

    twostate lemma RearrangedApart()
      requires old(Valid()) && Still() && Rearranged()
      ensures Members() && Apart()
    {
      RearrangedMembers();
      forall p, q | p in entries && q in entries && p != q ensures Separate(entries[p], entries[q]) {
        if p in old(entries) && q in old(entries) {
          assert old(Separate(entries[p], entries[q]));
        } else if p in old(entries) {
          assert old(Separate(spare, entries[p]));
        } else {
          assert old(Separate(spare, entries[q]));
        }
      }
      if spare != null {
        forall p | p in entries ensures Separate(spare, entries[p]) { assert old(Separate(spare, entries[p])); }
      }
    }

    twostate lemma RearrangedSound()
      requires old(Valid()) && Still() && Rearranged()
      ensures Members() && Sound()
    {
      RearrangedMembers();
      forall p | p in entries ensures entries[p].models.Ok() && Identity(entries[p].models.registry) {
        var e := entries[p];
        assert Kept(e) && old(e.models.Ok());
      }
    }

    twostate lemma RearrangedShows()
      requires old(Valid()) && Still() && Rearranged() && entries.Keys == pods.Keys == models.Keys
      requires forall p :: p in entries && p in old(entries) ==> pods[p] == old(pods)[p] && models[p] == old(models)[p]
      requires forall p :: p in entries && p !in old(entries) ==> pods[p] == old(spare.pod) && models[p] == {}
      ensures Members() && Shows()
    {
      RearrangedMembers();
      forall p | p in entries ensures entries[p].pod == pods[p] && entries[p].models.registry.Keys == models[p] {
        var e := entries[p];
        assert Kept(e);
      }
    }

    twostate lemma RearrangedValid()
      requires old(Valid()) && Still() && Rearranged() && entries.Keys == pods.Keys == models.Keys
      requires forall p :: p in entries && p in old(entries) ==> pods[p] == old(pods)[p] && models[p] == old(models)[p]
      requires forall p :: p in entries && p !in old(entries) ==> pods[p] == old(spare.pod) && models[p] == {}
      ensures Valid()
    {
      RearrangedApart();
      RearrangedSound();
      RearrangedShows();
    }

    /** The entries are as they were, and the spare is blank: the old one or a new one. */
    twostate predicate Spared()
      reads this, Repr
    {
      && entries == old(entries) && pods == old(pods) && models == old(models) && old(Repr) <= Repr
      && (forall o: object {:trigger o in old(Repr)} :: o in old(Repr) && o != this && o != spare ==> unchanged(o))
      && spare != null && Has(spare) && spare.models.Ok() && spare.models.registry == map[]
      && (spare == old(spare) || (fresh(spare) && fresh(spare.models) && fresh(spare.models.buf)))
    }

    twostate lemma SparedEntries()
      requires old(Valid()) && Spared()
      ensures Members() && forall p :: p in entries ==> Kept(entries[p]) && Separate(spare, entries[p])
    {
      forall p | p in entries ensures Has(entries[p]) && Kept(entries[p]) && Separate(spare, entries[p]) {
        var e := entries[p];
        assert old(Has(e));
        if spare == old(spare) { assert old(Has(spare) && Separate(spare, e)); }
      }
    }

    twostate lemma SparedValid()
      requires old(Valid()) && Spared()
      ensures Valid()
    {
      SparedEntries();
      forall p, q | p in entries && q in entries && p != q ensures Separate(entries[p], entries[q]) {
        assert old(Separate(entries[p], entries[q]));
      }
      forall p | p in entries ensures entries[p].models.Ok() && Identity(entries[p].models.registry) {
        assert old(entries[p].models.Ok());
      }
    }

    method GiveSpare(pod: PodObject)
      requires Valid()
      modifies this`spare, this`Repr, spare
      ensures Spared() && fresh(Repr - old(Repr)) && spare.pod == pod
    {
      if spare == null {
        spare := new MetaPod(pod);
        Repr := Repr + {spare, spare.models, spare.models.buf};
      } else {
        spare.pod := pod;
      }
    }

    /** addPodLocked's spare: made if there is none, otherwise given the new pod object. */
    method FillSpare(pod: PodObject)
      requires Valid()
      modifies this`spare, this`Repr, spare
      ensures Valid() && fresh(Repr - old(Repr)) && old(Repr) <= Repr && spare != null && spare.pod == pod
    {
      GiveSpare(pod);
      SparedValid();
    }

    method MoveSpare(name: string)
      requires Valid() && spare != null && name !in entries
      modifies this`entries, this`spare, this`pods, this`models
      ensures Still() && Rearranged() && spare == null && entries == old(entries)[name := old(spare)]
      ensures pods == old(pods)[name := old(spare.pod)] && models == old(models)[name := {}]
    {
      entries, pods, models := entries[name := spare], pods[name := spare.pod], models[name := {}];
      spare := null;
    }

    /** The spare becomes an entry, with an empty registry of its own. */
    method UseSpare(name: string)
      requires Valid() && spare != null && name !in entries
      modifies this`entries, this`spare, this`pods, this`models
      ensures Valid() && pods == old(pods)[name := old(spare.pod)] && models == old(models)[name := {}]
    {
      MoveSpare(name);
      RearrangedValid();
    }

    /** LoadOrStore: a known pod keeps its object, and the new object stays in the spare. */
    method Add(pod: PodObject)
      requires Valid()
      modifies Repr
      ensures Valid() && fresh(Repr - old(Repr)) && old(Repr) <= Repr
      ensures pods == if pod.name in old(pods) then old(pods) else old(pods)[pod.name := pod]
      ensures models == if pod.name in old(pods) then old(models) else old(models)[pod.name := {}]
    {
      FillSpare(pod);
      if pod.name !in entries { UseSpare(pod.name); }
    }

    /** An entry that has been taken out: still held, and sharing nothing with those left. */
    ghost predicate Outside(e: MetaPod)
      requires Members()
      reads this, Repr, e
    {
      && Has(e) && e.models.Ok() && Identity(e.models.registry)
      && (forall p :: p in entries ==> Separate(e, entries[p])) && (spare != null ==> Separate(e, spare))
    }

    method Drop(name: string)
      requires Valid()
      modifies this`entries, this`pods, this`models
      ensures Still() && Rearranged() && entries == old(entries) - {name}
      ensures pods == old(pods) - {name} && models == old(models) - {name}
    {
      entries, pods, models := entries - {name}, pods - {name}, models - {name};
    }

    twostate lemma DroppedOutside(name: string)
      requires old(Valid()) && Still() && Rearranged() && name in old(entries)
      requires entries == old(entries) - {name} && spare == old(spare)
      ensures Members() && Outside(old(entries)[name]) && old(entries)[name].models.registry.Keys == old(models)[name]
    {
      var e := old(entries)[name];
      RearrangedMembers();
      EntryStill(e);
      assert old(e.models.Ok());
      forall p | p in entries ensures Separate(e, entries[p]) { assert old(Separate(e, entries[p])); }
      if spare != null { assert old(Separate(spare, e)); }
    }

    method TakeOut(name: string) returns (e: MetaPod)
      requires Valid() && name in entries
      modifies this`entries, this`pods, this`models
      ensures Valid() && pods == old(pods) - {name} && models == old(models) - {name}
      ensures Outside(e) && e.models.registry.Keys == old(models)[name]
    {
      e := entries[name];
      Drop(name);
      RearrangedValid();
      DroppedOutside(name);
    }

    /** LoadAndDelete. */
    method Remove(name: string) returns (e: MetaPod?)
      requires Valid()
      modifies this`entries, this`pods, this`models
      ensures Valid() && pods == old(pods) - {name} && models == old(models) - {name}
      ensures e == null <==> name !in old(pods)
      ensures e != null ==> Outside(e) && e.models.registry.Keys == old(models)[name]
    {
      if name in entries {
        e := TakeOut(name);
      } else {
        assert pods - {name} == pods && models - {name} == models;
        e := null;
      }
    }

    twostate lemma AllKept(e: MetaPod)
      requires old(Valid()) && old(Outside(e)) && entries == old(entries) && spare == old(spare) && pods == old(pods) && models == old(models)
      requires forall o: object {:trigger o in old(Repr)} ::
        o in old(Repr) && o != this && o != e.models && o != old(e.models.buf) ==> unchanged(o)
      requires old(Repr) <= Repr
      ensures Valid()
    {
      forall q | q in entries ensures Kept(entries[q]) && Has(entries[q]) {
        assert old(Has(entries[q]) && Separate(e, entries[q]));
      }
      if spare != null { assert old(Has(spare) && Separate(e, spare)); }
    }

    /** The array of a removed entry's registry: each of its models once. */
    method ListRemoved(e: MetaPod) returns (names: seq<string>)
      requires Valid() && Outside(e)
      modifies e.models, e.models.buf
      ensures Valid()
      ensures forall m :: m in names <==> m in old(e.models.registry)
      ensures forall i, j :: 0 <= i < j < |names| ==> names[i] != names[j]
    {
      var arr, len := e.models.Array();
      names := arr[..len];
      IdentityValues(names, e.models.registry);
      AllKept(e);
    }
  }
}
