/**
 * The cache's models by name, each with the customized registry of its pods, and the spare entry kept for the
 * next model. As for pods, the registries, their arrays and their cached PodArrays are objects of their own
 * that no two entries, nor an entry and the spare, share.
 */
module ModelTables {
  import opened PodArrays
  import opened Snapshots
  import opened Registries

  class MetaModel {
    const pods: PodRegistry

    constructor ()
      ensures pods.Ok() && pods.base.registry == map[] && pods.cached == null
      ensures fresh(pods) && fresh(pods.base) && fresh(pods.base.buf)
    {
      pods := new PodRegistry();
    }
  }

  ghost predicate Separate(e: MetaModel, f: MetaModel)
    reads e.pods, e.pods.base, f.pods, f.pods.base
  {
    && e != f && e.pods != f.pods && e.pods.base != f.pods.base && e.pods.base.buf != f.pods.base.buf
    && (e.pods.cached != null ==> e.pods.cached != f.pods.cached)
  }

  twostate predicate Kept(e: MetaModel)
    reads e, e.pods, e.pods.base, e.pods.base.buf, e.pods.cached
  {
    && unchanged(e.pods) && unchanged(e.pods.base) && unchanged(e.pods.base.buf)
    && (e.pods.cached != null ==> unchanged(e.pods.cached))
  }

  /** `index` is what the entries show. */
  class ModelTable {
    var entries: map<string, MetaModel>
    var spare: MetaModel?
    ghost var Repr: set<object>
    ghost var index: map<string, map<string, PodObject>>

    ghost predicate Has(e: MetaModel)
      reads this, Repr
    {
      && e in Repr && e.pods in Repr && e.pods.base in Repr && e.pods.base.buf in Repr
      && (e.pods.cached != null ==> e.pods.cached in Repr)
    }

    ghost predicate Members()
      reads this, Repr
    {
      this in Repr && (forall m :: m in entries ==> Has(entries[m])) && (spare != null ==> Has(spare))
    }

    /** No two entries share an object of any kind, and none shares one with the spare. */
    ghost predicate Apart()
      requires Members()
      reads this, Repr
    {
      && (forall m, k :: m in entries && k in entries && m != k ==> Separate(entries[m], entries[k]))
      && (spare != null ==> forall m :: m in entries ==> Separate(spare, entries[m]) && Separate(entries[m], spare))
    }

    /** Every registry is right, and the spare's is empty. */
    ghost predicate Sound()
      requires Members()
      reads this, Repr
    {
      && (forall m :: m in entries ==> entries[m].pods.Ok())
      && (spare != null ==> spare.pods.Ok() && spare.pods.base.registry == map[])
    }

    ghost predicate Shows()
      requires Members()
      reads this, Repr
    {
      entries.Keys == index.Keys && forall m :: m in entries ==> entries[m].pods.base.registry == index[m]
    }

    ghost predicate Valid()
      reads this, Repr
    {
      Members() && Apart() && Sound() && Shows()
    }

    constructor ()
      ensures Valid() && fresh(Repr) && index == map[]
    {
      entries, spare, index := map[], null, map[];
      Repr := {this};
    }

    // --- a change to one entry's registry -------------------------------------------------------------------

    /** Only the registry of one entry changed; its array and its cached PodArray only for fresh ones. */
    twostate predicate OnlyAt(model: string)
      requires old(Valid()) && model in old(entries)
      reads this, Repr
    {
      && entries == old(entries) && spare == old(spare) && Members()
      && (forall k :: k in entries && k != model ==> Kept(entries[k])) && (spare != null ==> Kept(spare))
      && Renewed(entries[model])
    }

    /** Arrays are kept or fresh, cached PodArrays kept, fresh or dropped. */
    twostate predicate Renewed(e: MetaModel)
      reads e.pods, e.pods.base
    {
      && (e.pods.base.buf == old(e.pods.base.buf) || fresh(e.pods.base.buf))
      && (e.pods.cached == null || e.pods.cached == old(e.pods.cached) || fresh(e.pods.cached))
    }

    /** No entry caches this PodArray any more. */
    ghost predicate Stale(older: PodArray)
      requires Members()
      reads this, Repr
    {
      (forall m :: m in entries ==> entries[m].pods.cached != older) && (spare != null ==> spare.pods.cached != older)
    }

    /** All held objects are as they were, but the table, one entry's registry, base, array and PodArray, and stale PodArrays. */
    twostate predicate Frame(model: string)
      requires old(Members()) && model in old(entries)
      reads this, Repr
    {
      && entries == old(entries) && spare == old(spare) && old(Repr) <= Repr
      && forall o: object {:trigger o in old(Repr)} ::
           (&& o in old(Repr) && o != this && o != entries[model].pods && o != entries[model].pods.base
            && o != old(entries[model].pods.base.buf) && o != old(entries[model].pods.cached)
            && !(o is PodArray && old(Stale(o as PodArray)))) ==> unchanged(o)
    }

    twostate lemma EntriesKept(model: string)
      requires old(Valid()) && model in old(entries) && Frame(model)
      ensures forall k :: k in entries && k != model ==> Kept(entries[k])
    {
      forall k | k in entries && k != model ensures Kept(entries[k]) {
        assert old(Has(entries[k]) && Separate(entries[k], entries[model]));
      }
    }

    twostate lemma SpareKept(model: string)
      requires old(Valid()) && model in old(entries) && Frame(model)
      ensures spare != null ==> Kept(spare)
    {
      assert spare != null ==> old(Has(spare) && Separate(spare, entries[model]));
    }

    twostate lemma OthersKept(model: string)
      requires old(Valid()) && model in old(entries) && Frame(model)
      ensures (forall k :: k in entries && k != model ==> Kept(entries[k])) && (spare != null ==> Kept(spare))
    {
      EntriesKept(model);
      SpareKept(model);
    }

    twostate lemma Confined(model: string)
      requires old(Valid()) && model in old(entries) && Frame(model)
      requires Has(entries[model]) && Renewed(entries[model])
      ensures OnlyAt(model)
    {
      OthersKept(model);
      forall k | k in entries ensures Has(entries[k]) { assert old(Has(entries[k])); }
    }

    twostate lemma ApartKept(model: string)
      requires old(Valid()) && model in old(entries) && OnlyAt(model)
      ensures Apart()
    {
      forall m, k | m in entries && k in entries && m != k ensures Separate(entries[m], entries[k]) {
        assert old(Separate(entries[m], entries[k]) && Has(entries[m]) && Has(entries[k]));
      }
      if spare != null {
        forall m | m in entries ensures Separate(spare, entries[m]) && Separate(entries[m], spare) {
          assert old(Separate(spare, entries[m]) && Separate(entries[m], spare) && Has(entries[m]) && Has(spare));
        }
      }
    }

    twostate lemma SoundKept(model: string)
      requires old(Valid()) && model in old(entries) && OnlyAt(model) && entries[model].pods.Ok()
      ensures Sound()
    {
      forall m | m in entries ensures entries[m].pods.Ok() {
        if m != model { assert Kept(entries[m]) && old(entries[m].pods.Ok()); }
      }
    }

    twostate lemma ShowsKept(model: string)
      requires old(Valid()) && model in old(entries) && OnlyAt(model)
      requires index == old(index)[model := entries[model].pods.base.registry]
      ensures Shows()
    {
      forall m | m in entries ensures entries[m].pods.base.registry == index[m] {
        if m != model { assert Kept(entries[m]); }
      }
    }

    twostate lemma ValidAt(model: string)
      requires old(Valid()) && model in old(entries) && OnlyAt(model) && entries[model].pods.Ok()
      requires index == old(index)[model := entries[model].pods.base.registry]
      ensures Valid()
    {
      ApartKept(model);
      SoundKept(model);
      ShowsKept(model);
    }

    method StoreAt(model: string, name: string, pod: PodObject)
      requires Valid() && model in entries
      modifies this`Repr, this`index, entries[model].pods, entries[model].pods.base, entries[model].pods.base.buf
      ensures OnlyAt(model) && Repr == old(Repr) + {entries[model].pods.base.buf} && entries[model].pods.Ok()
      ensures entries[model].pods.base.registry == old(index)[model][name := pod]
      ensures index == old(index)[model := entries[model].pods.base.registry]
    {
      entries[model].pods.Store(name, pod);
      Repr, index := Repr + {entries[model].pods.base.buf}, index[model := entries[model].pods.base.registry];
      Confined(model);
    }

    /** The model's registry gains the pod, or a new object for it. */
    method AddPod(model: string, name: string, pod: PodObject)
      requires Valid() && model in entries
      modifies Repr
      ensures Valid() && fresh(Repr - old(Repr)) && index == old(index)[model := old(index)[model][name := pod]]
    {
      StoreAt(model, name, pod);
      ValidAt(model);
    }

    method DeleteAt(model: string, name: string)
      requires Valid() && model in entries
      modifies this`index, entries[model].pods, entries[model].pods.base
      ensures OnlyAt(model) && entries[model].pods.Ok()
      ensures entries[model].pods.base.registry == old(index)[model] - {name}
      ensures index == old(index)[model := entries[model].pods.base.registry]
    {
      entries[model].pods.Delete(name);
      index := index[model := entries[model].pods.base.registry];
      Confined(model);
    }

    /** The model's registry loses the pod. */
    method RemovePod(model: string, name: string)
      requires Valid() && model in entries
      modifies Repr
      ensures Valid() && Repr == old(Repr) && index == old(index)[model := old(index)[model] - {name}]
    {
      DeleteAt(model, name);
      ValidAt(model);
    }

    method Count(model: string) returns (k: nat)
      requires Valid() && model in entries
      ensures k == |index[model]|
    {
      k := entries[model].pods.Len();
    }

    method ArrayAt(model: string) returns (arr: PodArray)
      requires Valid() && model in entries
      modifies this`Repr, entries[model].pods, entries[model].pods.base, entries[model].pods.base.buf
      ensures OnlyAt(model) && Repr == old(Repr) + {entries[model].pods.base.buf, arr} && entries[model].pods.Ok()
      ensures entries[model].pods.base.registry == old(index)[model] && arr == entries[model].pods.cached
      ensures arr.Ok() && Permutes(multiset(arr.pods[..arr.n]), index[model])
    {
      arr := entries[model].pods.Array();
      Repr := Repr + {entries[model].pods.base.buf, arr};
      Confined(model);
    }

    /** The PodArray of the model's registry: its pods, each once. */
    method ListPods(model: string) returns (arr: PodArray)
      requires Valid() && model in entries
      modifies Repr
      ensures Valid() && fresh(Repr - old(Repr)) && index == old(index) && arr in Repr && arr.pods in Repr
      ensures model in entries && arr == entries[model].pods.cached
      ensures arr.Ok() && Permutes(multiset(arr.pods[..arr.n]), index[model])
    {
      arr := ArrayAt(model);
      assert index == index[model := entries[model].pods.base.registry];
      ValidAt(model);
    }

    method IndexAt(model: string, deployment: string) returns (r: seq<PodObject>)
      requires Valid() && model in entries && entries[model].pods.cached != null
      modifies entries[model].pods.cached, entries[model].pods.base.buf
      ensures OnlyAt(model) && entries[model].pods.Ok() && DeploymentOf(r, index[model], deployment)
    {
      r := entries[model].pods.IndexCurrent(deployment);
      Confined(model);
    }

    /** Indexing the model's current PodArray, for instance one handed out before: the table stays right. */
    method IndexCurrent(model: string, deployment: string) returns (r: seq<PodObject>)
      requires Valid() && model in entries && entries[model].pods.cached != null
      modifies entries[model].pods.cached, entries[model].pods.base.buf
      ensures Valid() && DeploymentOf(r, index[model], deployment)
    {
      r := IndexAt(model, deployment);
      assert index == index[model := entries[model].pods.base.registry];
      ValidAt(model);
    }

    /** The pods of one deployment among the model's. */
    method ListByIndex(model: string, deployment: string) returns (r: seq<PodObject>)
      requires Valid() && model in entries
      modifies Repr
      ensures Valid() && fresh(Repr - old(Repr)) && index == old(index) && DeploymentOf(r, index[model], deployment)
    {
      var _ := ListPods(model);
      r := IndexCurrent(model, deployment);
    }

    method IndexOlderAt(model: string, older: PodArray, deployment: string) returns (r: seq<PodObject>)
      requires Valid() && model in entries && older.Ok() && older.pods == entries[model].pods.base.buf && Stale(older)
      modifies older, older.pods
      ensures OnlyAt(model) && older.Ok()
      ensures old(Bearable(model, older)) ==> entries[model].pods.Ok()
    {
      r := entries[model].pods.IndexOlder(older, deployment);
      Confined(model);
    }

    /** The sort of an older snapshot leaves the current pods in place and their index right. */
    ghost predicate Bearable(model: string, older: PodArray)
      requires model in entries
      reads this, entries[model].pods.base, entries[model].pods, older, older.pods
    {
      var n := entries[model].pods.base.n;
      older.index.Some? || older.n <= n ||
      (older.n <= older.pods.Length && n <= older.pods.Length
       && Harmless(older.pods[..older.n], older.pods[..n]) && Consistent(older.pods[..older.n]))
    }

    /** Indexing a snapshot handed out before the registry changed; the array is still shared. */
    method IndexOlder(model: string, older: PodArray, deployment: string) returns (r: seq<PodObject>)
      requires Valid() && model in entries && older.Ok() && older.pods == entries[model].pods.base.buf && Stale(older)
      modifies older, older.pods
      ensures older.Ok() && (old(Bearable(model, older)) ==> Valid())
    {
      ghost var fine := Bearable(model, older);
      r := IndexOlderAt(model, older, deployment);
      if fine {
        assert index == index[model := entries[model].pods.base.registry];
        ValidAt(model);
      }
    }

    // --- entries that come and go ------------------------------------------------------------------------------

    /** No object the table held changed but the table itself. */
    twostate predicate Still()
      reads this, Repr
    {
      old(Repr) <= Repr && forall o: object {:trigger o in old(Repr)} :: o in old(Repr) && o != this ==> unchanged(o)
    }

    twostate lemma EntryStill(e: MetaModel)
      requires old(Has(e)) && Still()
      ensures Kept(e) && Has(e)
    {
    }

    /** Every entry is an old entry or the old spare, and the spare is the old spare unless that became an entry. */
    twostate predicate Rearranged()
      reads this
    {
      && (forall m :: m in entries ==>
            || (m in old(entries) && entries[m] == old(entries)[m])
            || (m !in old(entries) && spare == null && entries[m] == old(spare)))
      && (forall m, k :: m in entries && k in entries && m !in old(entries) && k !in old(entries) ==> m == k)
      && (spare == null || spare == old(spare))
    }

    twostate lemma RearrangedMembers()
      requires old(Valid()) && Still() && Rearranged()
      ensures Members() && (forall m :: m in entries ==> Kept(entries[m])) && (spare != null ==> Kept(spare))
    {
      forall m | m in entries ensures Has(entries[m]) && Kept(entries[m]) { EntryStill(entries[m]); }
      if spare != null { EntryStill(spare); }
    }

    twostate lemma RearrangedApart()
      requires old(Valid()) && Still() && Rearranged()
      ensures Members() && Apart()
    {
      RearrangedMembers();
      forall m, k | m in entries && k in entries && m != k ensures Separate(entries[m], entries[k]) {
        if m in old(entries) && k in old(entries) {
          assert old(Separate(entries[m], entries[k]));
        } else if m in old(entries) {
          assert old(Separate(entries[m], spare));
        } else {
          assert old(Separate(spare, entries[k]));
        }
      }
      if spare != null {
        forall m | m in entries ensures Separate(spare, entries[m]) && Separate(entries[m], spare) {
          assert old(Separate(spare, entries[m]) && Separate(entries[m], spare));
        }
      }
    }

    twostate lemma RearrangedSound()
      requires old(Valid()) && Still() && Rearranged()
      ensures Members() && Sound()
    {
      RearrangedMembers();
      forall m | m in entries ensures entries[m].pods.Ok() {
        var e := entries[m];
        assert Kept(e) && old(e.pods.Ok());
      }
    }

    twostate lemma RearrangedShows()
      requires old(Valid()) && Still() && Rearranged() && entries.Keys == index.Keys
      requires forall m :: m in entries ==> index[m] == if m in old(entries) then old(index)[m] else map[]
      ensures Members() && Shows()
    {
      RearrangedMembers();
      forall m | m in entries ensures entries[m].pods.base.registry == index[m] {
        var e := entries[m];
        assert Kept(e);
      }
    }

    twostate lemma RearrangedValid()
      requires old(Valid()) && Still() && Rearranged() && entries.Keys == index.Keys
      requires forall m :: m in entries ==> index[m] == if m in old(entries) then old(index)[m] else map[]
      ensures Valid()
    {
      RearrangedApart();
      RearrangedSound();
      RearrangedShows();
    }

    /** The entries are as they were, and the spare is a new blank one. */
    twostate predicate Spared()
      reads this, Repr
    {
      && entries == old(entries) && index == old(index) && Still() && spare != null && Has(spare)
      && spare.pods.Ok() && spare.pods.base.registry == map[] && spare.pods.cached == null
      && fresh(spare) && fresh(spare.pods) && fresh(spare.pods.base) && fresh(spare.pods.base.buf)
    }

    twostate lemma SparedEntries()
      requires old(Valid()) && Spared()
      ensures Members()
      ensures forall m :: m in entries ==> Kept(entries[m]) && Separate(spare, entries[m]) && Separate(entries[m], spare)
    {
      forall m | m in entries
        ensures Has(entries[m]) && Kept(entries[m]) && Separate(spare, entries[m]) && Separate(entries[m], spare)
      {
        assert old(Has(entries[m]));
        EntryStill(entries[m]);
      }
    }

    twostate lemma SparedValid()
      requires old(Valid()) && Spared()
      ensures Valid()
    {
      SparedEntries();
      forall m, k | m in entries && k in entries && m != k ensures Separate(entries[m], entries[k]) {
        assert old(Separate(entries[m], entries[k]));
      }
      forall m | m in entries ensures entries[m].pods.Ok() { assert old(entries[m].pods.Ok()); }
    }

    method MakeSpare()
      requires Valid() && spare == null
      modifies this`spare, this`Repr
      ensures Spared() && fresh(Repr - old(Repr))
    {
      spare := new MetaModel();
      Repr := Repr + {spare, spare.pods, spare.pods.base, spare.pods.base.buf};
    }

    method FreshSpare()
      requires Valid() && spare == null
      modifies this`spare, this`Repr
      ensures Valid() && fresh(Repr - old(Repr)) && old(Repr) <= Repr && spare != null
    {
      MakeSpare();
      SparedValid();
    }

    method MoveSpare(model: string)
      requires Valid() && spare != null && model !in entries
      modifies this`entries, this`spare, this`index
      ensures Still() && Rearranged() && spare == null && entries == old(entries)[model := old(spare)]
      ensures index == old(index)[model := map[]]
    {
      entries, index := entries[model := spare], index[model := map[]];
      spare := null;
    }

    /** The spare becomes an entry, with an empty registry of its own. */
    method UseSpare(model: string)
      requires Valid() && spare != null && model !in entries
      modifies this`entries, this`spare, this`index
      ensures Valid() && index == old(index)[model := map[]] && model in entries
    {
      MoveSpare(model);
      RearrangedValid();
    }

    /** LoadOrStore: a model that was not there appears with no pods. */
    method Ensure(model: string)
      requires Valid()
      modifies this
      ensures Valid() && fresh(Repr - old(Repr)) && old(Repr) <= Repr && model in entries
      ensures index == old(index)[model := if model in old(index) then old(index)[model] else map[]]
    {
      if spare == null { FreshSpare(); }
      if model !in entries { UseSpare(model); }
    }

    method Take(model: string)
      requires Valid()
      modifies this`entries, this`index
      ensures Still() && Rearranged() && entries == old(entries) - {model} && index == old(index) - {model}
    {
      entries, index := entries - {model}, index - {model};
    }

    method Drop(model: string)
      requires Valid()
      modifies this`entries, this`index
      ensures Valid() && index == old(index) - {model}
    {
      Take(model);
      RearrangedValid();
    }
  }
}
