/**
 * Registries: a map plus a lazily rebuilt array of its values. The array is a Go slice: a length and a
 * backing array that is reused, so a slice handed out earlier may be overwritten later.
 */
module Registries {
  import opened Collections
  import opened PodArrays
  import opened Snapshots

  function KeysAt<V(==)>(m: map<string, V>, v: V): set<string> { set k | k in m && m[k] == v }

  /** `values` holds every value of the map as often as the map does: a permutation of its values. */
  ghost predicate Permutes<V(!new)>(values: multiset<V>, m: map<string, V>) {
    |values| == |m| && forall v :: values[v] == |KeysAt(m, v)|
  }

  lemma PermutesEmpty<V(!new)>()
    ensures Permutes<V>(multiset{}, map[])
  {
  }

  lemma KeysAtAdd<V>(m: map<string, V>, k: string, v: V, u: V)
    requires k !in m
    ensures |KeysAt(m[k := v], u)| == |KeysAt(m, u)| + if u == v then 1 else 0
  {
    if u == v {
      assert KeysAt(m[k := v], u) == KeysAt(m, u) + {k};
    } else {
      assert KeysAt(m[k := v], u) == KeysAt(m, u);
    }
  }

  lemma PermutesAdd<V(!new)>(values: multiset<V>, m: map<string, V>, k: string, v: V)
    requires Permutes(values, m) && k !in m
    ensures Permutes(values + multiset{v}, m[k := v])
  {
    forall u ensures (values + multiset{v})[u] == |KeysAt(m[k := v], u)| {
      KeysAtAdd(m, k, v, u);
    }
    assert m[k := v].Keys == m.Keys + {k};
  }

  /** Visiting one more key of a map extends the permutation of the part already visited. */
  lemma PermutesNext<V(!new)>(values: seq<V>, m: map<string, V>, todo: set<string>, k: string)
    requires Permutes(multiset(values), m - todo) && k in todo && k in m
    ensures Permutes(multiset(values + [m[k]]), m - (todo - {k}))
  {
    PermutesAdd(multiset(values), m - todo, k, m[k]);
    assert m - (todo - {k}) == (m - todo)[k := m[k]];
    assert multiset(values + [m[k]]) == multiset(values) + multiset{m[k]};
  }

  lemma NoneVisited<V(!new)>(m: map<string, V>)
    ensures Permutes(multiset{}, m - m.Keys)
  {
    assert m - m.Keys == map[];
    PermutesEmpty<V>();
  }

  /** A map has one multiset of values. */
  lemma PermutesOnce<V(!new)>(a: multiset<V>, b: multiset<V>, m: map<string, V>)
    requires Permutes(a, m)
    ensures Permutes(b, m) <==> a == b
  {
    if Permutes(b, m) { assert forall v :: a[v] == b[v]; }
  }

  lemma RemoveCount<V>(m: map<string, V>, k: string)
    ensures |m - {k}| == |m| - if k in m then 1 else 0
    ensures k !in m ==> m - {k} == m
  {
    assert (m - {k}).Keys == m.Keys - {k};
  }

  lemma Placed<V>(values: seq<V>, v: V, was: seq<V>, now: seq<V>)
    requires |values| < |was| == |now| && now == values + was[|values|..]
    ensures now[..|values|] + [v] + now[|values| + 1..] == values + [v] + was[|values + [v]|..]
  {
  }

  class Registry<V(0,==,!new)> {
    var made: bool              // the Go map is not nil
    var registry: map<string, V>
    var buf: array<V>           // backing array of `values`
    var n: nat                  // length of `values`
    var valid: bool

    /** A valid cache is a permutation of the map's values; an invalid one is empty. */
    ghost predicate Ok()
      reads this, buf
    {
      && n <= buf.Length
      && (!made ==> registry == map[])
      && (if valid then Permutes(multiset(buf[..n]), registry) else n == 0)
    }

    /** NewRegistry, and with `valid` false the zero value a customized registry embeds. */
    constructor (valid: bool)
      ensures Ok() && registry == map[] && !made && this.valid == valid && fresh(buf)
    {
      made, registry, n, this.valid := false, map[], 0, valid;
      buf := new V[0];
      new;
      assert buf[..0] == [];
      PermutesEmpty<V>();
    }

    method Load(key: string) returns (value: Option<V>)
      ensures value == if key in registry then Some(registry[key]) else None
    {
      value := if key in registry then Some(registry[key]) else None;
    }

    /** append: in place while there is room, otherwise into a larger copy. */
    method Append(value: V)
      requires n <= buf.Length
      modifies this`buf, this`n, buf
      ensures n == old(n) + 1 && n <= buf.Length && buf[..n] == old(buf[..n]) + [value]
      ensures buf == old(buf) || fresh(buf)
      ensures old(n) < old(buf).Length ==> buf == old(buf) && buf[n..] == old(buf[n + 1..])
    {
      if n == buf.Length {
        var bigger := new V[2 * n + 1];
        for i := 0 to n
          invariant n == old(n) && buf == old(buf) && fresh(bigger) && bigger.Length == 2 * n + 1
          invariant bigger[..i] == buf[..i] && buf[..n] == old(buf[..n])
        {
          bigger[i] := buf[i];
        }
        buf := bigger;
      }
      buf[n] := value;
      n := n + 1;
    }

    method Store(key: string, value: V)
      requires Ok()
      modifies this, buf
      ensures Ok() && registry == old(registry)[key := value] && made
      ensures buf == old(buf) || fresh(buf)
      ensures old(valid) && key !in old(registry) ==> valid && buf[..n] == old(buf[..n]) + [value]
    {
      made := true;
      var exist := key in registry;
      if valid && !exist { PermutesAdd(multiset(buf[..n]), registry, key, value); }
      registry := registry[key := value];
      if valid && !exist {
        Append(value);
      } else {
        n, valid := 0, false;
      }
    }

    /** The backing array keeps its contents, also when the cache is dropped. */
    method Delete(key: string)
      requires Ok()
      modifies this`registry, this`n, this`valid
      ensures Ok() && registry == old(registry) - {key}
      ensures made && old(n) != |registry| ==> n == 0 && !valid
    {
      if !made { return; }
      RemoveCount(registry, key);
      assert |multiset(buf[..n])| == n;
      registry := registry - {key};
      if n != |registry| {
        n, valid := 0, false;
      }
    }

    /** An array for the values, the old one if that is large enough. */
    method Reserve(size: nat)
      requires n == 0
      modifies this`buf
      ensures buf.Length >= size && (buf == old(buf) || fresh(buf)) && (size <= old(buf).Length ==> buf == old(buf))
    {
      if buf.Length < size { buf := new V[2 * size]; }
    }

    /** append where there is room. */
    method Put(value: V)
      requires n < buf.Length
      modifies this`buf, this`n, buf
      ensures buf == old(buf) && n == old(n) + 1 && buf[..] == old(buf[..n]) + [value] + old(buf[n + 1..])
    {
      Append(value);
      assert buf[..] == buf[..n] + buf[n..];
    }

    /** Refills an empty cache in any order; what lies beyond the values stays. */
    method Refill()
      requires n == 0 && |registry| <= buf.Length
      modifies this`buf, this`n, buf
      ensures buf == old(buf) && n <= buf.Length && Permutes(multiset(buf[..n]), registry)
      ensures buf[n..] == old(buf[..])[n..]
    {
      var m := registry;
      var todo := m.Keys;
      NoneVisited(m);
      ghost var values, was := [], buf[..];
      while todo != {}
        invariant buf == old(buf) && n == |values| && |values| + |todo| == |m| && todo <= m.Keys
        invariant buf[..] == values + was[|values|..] && Permutes(multiset(values), m - todo)
      {
        var k :| k in todo;
        PermutesNext(values, m, todo, k);
        Placed(values, m[k], was, buf[..]);
        Put(m[k]);
        values, todo := values + [m[k]], todo - {k};
      }
      assert m - {} == m;
      assert buf[..n] == values && buf[n..] == was[n..];
    }

    method UpdateArray() returns (reconstructed: bool)
      requires Ok()
      modifies this, buf
      ensures Ok() && registry == old(registry) && made == old(made) && (valid || !made)
      ensures buf == old(buf) || fresh(buf)
      ensures reconstructed <==> !old(valid) && made
      ensures !reconstructed ==> buf == old(buf) && n == old(n) && valid == old(valid) && buf[..] == old(buf[..])
      ensures |registry| <= old(buf).Length ==> buf == old(buf) && buf[n..] == old(buf[..])[n..]
    {
      reconstructed := !valid && made;
      if reconstructed {
        Reserve(|registry|);
        Refill();
        valid := true;
      }
    }

    /** Whatever came before, the slice returned is a permutation of the map's values. */
    method Array() returns (arr: array<V>, len: nat)
      requires Ok()
      modifies this, buf
      ensures Ok() && registry == old(registry) && made == old(made) && (buf == old(buf) || fresh(buf))
      ensures old(valid) || !made ==> buf == old(buf) && n == old(n) && valid == old(valid) && buf[..] == old(buf[..])
      ensures arr == buf && len == n <= arr.Length && Permutes(multiset(arr[..len]), registry)
    {
      if !valid {
        var _ := UpdateArray();
      }
      arr, len := buf, n;
      assert !valid ==> arr[..len] == [];
      PermutesEmpty<V>();
    }

    method Len() returns (k: nat)
      requires Ok()
      ensures k == |registry|
    {
      assert |multiset(buf[..n])| == n;
      k := if valid then n else |registry|;
    }
  }

  /** Pods stored under their own names, or at least pods of one name in one deployment. */
  ghost predicate SameDeployments(m: map<string, PodObject>) {
    forall k, l :: k in m && l in m && m[k].name == m[l].name ==> Deployment(m[k]) == Deployment(m[l])
  }

  /** Exactly the values of one deployment, if pods of one name share theirs. */
  ghost predicate DeploymentOf(r: seq<PodObject>, m: map<string, PodObject>, deployment: string) {
    SameDeployments(m) ==> forall p :: p in r <==> Deployment(p) == deployment && exists k :: k in m && m[k] == p
  }

  lemma ValueOf(values: seq<PodObject>, m: map<string, PodObject>, p: PodObject)
    requires Permutes(multiset(values), m)
    ensures p in values <==> exists k :: k in m && m[k] == p
  {
    assert p in values <==> p in multiset(values);
    if k :| k in m && m[k] == p { assert k in KeysAt(m, p); }
    if KeysAt(m, p) != {} { var k :| k in KeysAt(m, p); }
  }

  lemma ValuesConsistent(values: seq<PodObject>, m: map<string, PodObject>)
    requires Permutes(multiset(values), m) && SameDeployments(m)
    ensures Consistent(values)
  {
    forall i, j | 0 <= i < |values| && 0 <= j < |values| && values[i].name == values[j].name
      ensures Deployment(values[i]) == Deployment(values[j])
    {
      ValueOf(values, m, values[i]);
      ValueOf(values, m, values[j]);
    }
  }

  lemma SortedPermutes(before: seq<PodObject>, after: seq<PodObject>)
    requires before == after || exists k :: MaySort(k, before, after)
    ensures multiset(before) == multiset(after)
  {
  }

  /**
   * CustomizedRegistry over pods: on top of the embedded base registry it caches one PodArray, which
   * shares the base registry's backing array.
   */
  class PodRegistry {
    const base: Registry<PodObject>
    var cached: PodArray?

    /** A cached PodArray is the current slice of the base registry, never a stale one. */
    ghost predicate Right()
      reads this, base, base.buf
    {
      && base.Ok()
      && (cached != null ==> cached.pods == base.buf && cached.n == base.n && (base.valid || !base.made))
    }

    ghost predicate Ok()
      reads this, base, base.buf, cached
    {
      Right() && (cached != null ==> cached.Ok())
    }

    constructor ()
      ensures Ok() && base.registry == map[] && fresh(base) && fresh(base.buf) && cached == null
    {
      base := new Registry<PodObject>(false);
      cached := null;
    }

    method Store(key: string, value: PodObject)
      requires Ok()
      modifies this, base, base.buf
      ensures Ok() && cached == null && base.registry == old(base.registry)[key := value]
      ensures base.buf == old(base.buf) || fresh(base.buf)
      ensures old(base.valid) && key !in old(base.registry) ==>
                base.valid && base.buf[..base.n] == old(base.buf[..base.n]) + [value]
    {
      cached := null;
      base.Store(key, value);
    }

    method Delete(key: string)
      requires Ok()
      modifies this, base`registry, base`n, base`valid
      ensures Ok() && cached == null && base.registry == old(base.registry) - {key}
      ensures base.made && old(base.n) != |base.registry| ==> base.n == 0 && !base.valid
    {
      cached := null;
      base.Delete(key);
    }

    /** The PodArray returned is a permutation of the map's values, cached or not. */
    method Array() returns (arr: PodArray)
      requires Ok()
      modifies this, base, base.buf
      ensures Ok() && base.registry == old(base.registry) && base.made == old(base.made)
      ensures base.buf == old(base.buf) || fresh(base.buf)
      ensures arr == cached && (if old(cached) != null then arr == old(cached) else fresh(arr) && arr.index.None?)
      ensures old(base.valid) ==> base.valid && base.buf == old(base.buf) && base.buf[..] == old(base.buf[..])
      ensures base.made ==> base.valid
      ensures arr.pods == base.buf && arr.n == base.n && Permutes(multiset(arr.pods[..arr.n]), base.registry)
      ensures |base.registry| <= old(base.buf).Length ==>
                base.buf == old(base.buf) && base.buf[base.n..] == old(base.buf[..])[base.n..]
    {
      if cached == null {
        var _ := base.UpdateArray();
        cached := new PodArray(base.buf, base.n);
      }
      arr := cached;
      if !base.valid {
        assert arr.pods[..arr.n] == [];
        PermutesEmpty<PodObject>();
      }
    }

    /** A rebuild requested through the embedded base registry does not disturb the cached PodArray. */
    method BaseArray() returns (arr: array<PodObject>, len: nat)
      requires Ok()
      modifies base, base.buf
      ensures Ok() && base.registry == old(base.registry) && cached == old(cached)
      ensures len <= arr.Length && Permutes(multiset(arr[..len]), base.registry)
    {
      arr, len := base.Array();
    }

    method Len() returns (k: nat)
      requires Ok()
      ensures k == |base.registry|
    {
      k := base.Len();
    }

    /** Indexing the current PodArray, also one handed out earlier. */
    method IndexCurrent(deployment: string) returns (r: seq<PodObject>)
      requires Ok() && cached != null
      modifies cached, base.buf
      ensures Ok() && DeploymentOf(r, base.registry, deployment)
    {
      ghost var before := cached.pods[..cached.n];
      if SameDeployments(base.registry) { ValuesConsistent(before, base.registry); }
      r := cached.ListByIndex(deployment);
      SortedPermutes(before, cached.pods[..cached.n]);
      forall p ensures p in before <==> exists k :: k in base.registry && base.registry[k] == p {
        ValueOf(before, base.registry, p);
      }
    }

    /** Exactly the stored pods of the deployment, whatever calls came before. */
    method ListByIndex(deployment: string) returns (r: seq<PodObject>)
      requires Ok()
      modifies this, base, base.buf, cached
      ensures Ok() && base.registry == old(base.registry) && (base.buf == old(base.buf) || fresh(base.buf))
      ensures DeploymentOf(r, base.registry, deployment)
    {
      var _ := Array();
      r := IndexCurrent(deployment);
    }

    /** The registry is right if the part of the array an older snapshot covers reads r. */
    ghost predicate RightWith(r: seq<PodObject>)
      requires base.n <= base.buf.Length
      reads this, base, base.buf
    {
      base.valid ==> Permutes(multiset(Rewritten(base.buf[..base.n], r)), base.registry)
    }

    /**
     * An older snapshot that shares the backing array: in whatever order its sort leaves the pods the
     * registry is right, if and only if the snapshot is no longer than the current array or every pod
     * beyond the current ones has a larger class than every different current one.
     */
    lemma OlderSnapshotExact(a: PodArray)
      requires Ok() && a.pods == base.buf && a.n <= a.pods.Length
      ensures var s := a.pods[..a.n];
        Harmless(s, base.buf[..base.n]) <==> forall r :: MaySort(ClassesOf(s), s, r) ==> RightWith(r)
    {
      var s, f := a.pods[..a.n], base.buf[..base.n];
      ClassesFaithful(s);
      if base.valid {
        HarmlessExact(s, f);
        forall r ensures RightWith(r) <==> multiset(Rewritten(f, r)) == multiset(f) {
          PermutesOnce(multiset(f), multiset(Rewritten(f, r)), base.registry);
        }
      }
    }

    /**
     * Indexing an older snapshot that shares the backing array and is harmless leaves the registry right,
     * and the current array's index too unless names in the snapshot disagree.
     */
    method IndexOlder(a: PodArray, deployment: string) returns (r: seq<PodObject>)
      requires Ok() && a.Ok() && a != cached && a.pods == base.buf
      modifies a, base.buf
      ensures a.Ok() && a.Reread()
      ensures old(a.index.Some? || Harmless(base.buf[..a.n], base.buf[..base.n])) ==> Right()
      ensures old(a.index.Some? || a.n <= base.n) ==> Ok()
      ensures old(Harmless(base.buf[..a.n], base.buf[..base.n]) && Consistent(base.buf[..a.n])) ==> Ok()
    {
      ghost var before := base.buf[..];
      r := a.ListByIndex(deployment);
      ghost var after := base.buf[..];
      if old(a.index).None? && a.n > 0 && Harmless(before[..a.n], before[..base.n]) {
        PartKeeps(before, after, a.n, base.n);
        if cached != null && cached.index.Some? && (a.n <= base.n || Consistent(before[..a.n])) {
          PartKeepsIndex(before, after, a.n, base.n, cached.index.value, cached.deployments, cached.order);
        }
      }
    }
  }

  lemma OnlyValue<V(!new)>(values: seq<V>, k: string, v: V)
    requires Permutes(multiset(values), map[k := v])
    ensures values == [v]
  {
    assert KeysAt(map[k := v], v) == {k};
    assert |values| == |multiset(values)| == 1;
    assert v in multiset(values);
  }

  function ByName(pods: seq<PodObject>): map<string, PodObject> {
    if pods == [] then map[] else ByName(pods[..|pods| - 1])[pods[|pods| - 1].name := pods[|pods| - 1]]
  }

  ghost predicate DistinctNames(pods: seq<PodObject>) {
    forall i, j :: 0 <= i < j < |pods| ==> pods[i].name != pods[j].name
  }

  lemma {:induction false} ByNameKeys(pods: seq<PodObject>, name: string)
    ensures name in ByName(pods) <==> exists i :: 0 <= i < |pods| && pods[i].name == name
  {
    if pods != [] {
      var n := |pods| - 1;
      ByNameKeys(pods[..n], name);
      assert forall i :: 0 <= i < n ==> pods[..n][i] == pods[i];
    }
  }

  /** The array holds the pods in this order. */
  ghost predicate Holds(reg: PodRegistry, pods: seq<PodObject>)
    reads reg, reg.base, reg.base.buf, reg.cached
  {
    && reg.Ok() && reg.base.valid && reg.base.made
    && reg.base.registry == ByName(pods) && reg.base.buf[..reg.base.n] == pods
  }

  lemma ByNameNext(pods: seq<PodObject>, p: PodObject)
    requires DistinctNames(pods + [p])
    ensures p.name !in ByName(pods) && ByName(pods + [p]) == ByName(pods)[p.name := p]
  {
    ByNameKeys(pods, p.name);
    var more := pods + [p];
    assert more[|pods|] == p && forall i :: 0 <= i < |pods| ==> more[i] == pods[i];
    assert more[..|pods|] == pods;
  }

  method StoreNext(reg: PodRegistry, ghost pods: seq<PodObject>, p: PodObject)
    requires Holds(reg, pods) && DistinctNames(pods + [p])
    modifies reg, reg.base, reg.base.buf
    ensures Holds(reg, pods + [p]) && reg.cached == null
    ensures reg.base.buf == old(reg.base.buf) || fresh(reg.base.buf)
  {
    ByNameNext(pods, p);
    reg.Store(p.name, p);
  }

  method StoreFirst(p: PodObject) returns (reg: PodRegistry)
    ensures fresh(reg) && fresh(reg.base) && fresh(reg.base.buf) && Holds(reg, [p])
  {
    reg := new PodRegistry();
    reg.Store(p.name, p);
    var one := reg.Array();
    OnlyValue(reg.base.buf[..reg.base.n], p.name, p);
    assert [p][..0] == [];
  }

  /** A registry whose array is read after its first pod keeps the others in the order they are stored. */
  method StoreAll(pods: seq<PodObject>) returns (reg: PodRegistry)
    requires |pods| > 1 && DistinctNames(pods)
    ensures fresh(reg) && fresh(reg.base) && fresh(reg.base.buf) && reg.cached == null && Holds(reg, pods)
    decreases |pods|
  {
    var front, last := pods[..|pods| - 1], pods[|pods| - 1];
    assert pods == front + [last];
    if |front| == 1 {
      reg := StoreFirst(front[0]);
      assert front == [front[0]];
    } else {
      reg := StoreAll(front);
    }
    StoreNext(reg, front, last);
  }

  lemma {:induction false} ByNamePermutes(pods: seq<PodObject>)
    requires DistinctNames(pods)
    ensures Permutes(multiset(pods), ByName(pods)) && |ByName(pods)| == |pods|
  {
    if pods == [] {
      PermutesEmpty<PodObject>();
    } else {
      var front, last := pods[..|pods| - 1], pods[|pods| - 1];
      assert pods == front + [last];
      ByNamePermutes(front);
      ByNameNext(front, last);
      PermutesAdd(multiset(front), ByName(front), last.name, last);
    }
  }

  /** Deleting the last pod stored undoes its store. */
  lemma ByNameLast(front: seq<PodObject>, p: PodObject)
    requires DistinctNames(front + [p])
    ensures ByName(front + [p]) - {p.name} == ByName(front) && DistinctNames(front)
  {
    ByNameNext(front, p);
    assert forall i :: 0 <= i < |front| ==> (front + [p])[i] == front[i];
  }

  /** Deleting the last two of four drops the cache but not what the array holds. */
  method DeleteTwo(reg: PodRegistry, pods: seq<PodObject>)
    requires Holds(reg, pods) && |pods| == 4 && DistinctNames(pods)
    modifies reg, reg.base`registry, reg.base`n, reg.base`valid
    ensures reg.Ok() && reg.cached == null && !reg.base.valid && reg.base.made
    ensures reg.base.registry == ByName(pods[..2])
  {
    var two, three := pods[..2], pods[..3];
    assert pods == three + [pods[3]] && three == two + [pods[2]];
    ByNameLast(three, pods[3]);
    ByNameLast(two, pods[2]);
    ByNamePermutes(three);
    ByNamePermutes(two);
    reg.Delete(pods[3].name);
    reg.Delete(pods[2].name);
  }

  /** Two pods, two deleted ones behind them, each deployment once in front and once behind. */
  ghost predicate Interleaved(s: seq<PodObject>) {
    && |s| == 4 && DistinctNames(s) && Deployment(s[0]) != Deployment(s[1])
    && (Deployment(s[2]) == Deployment(s[0]) || Deployment(s[3]) == Deployment(s[0]))
  }

  lemma InterleavedSpoils(s: seq<PodObject>, r: seq<PodObject>, m: map<string, PodObject>)
    requires Interleaved(s) && Permutes(multiset(s[..2]), m) && MaySort(ClassesOf(s), s, r)
    ensures |r| == 4 && !Permutes(multiset(r[..2]), m)
  {
    assert Consistent(s);
    PushedOut(s, r);
    assert s[..2][1] in multiset(s[..2]) && s[1] !in multiset(r[..2]);
    PermutesOnce(multiset(s[..2]), multiset(r[..2]), m);
  }

  ghost predicate Paired(pods: seq<PodObject>) {
    && |pods| == 4 && DistinctNames(pods)
    && Deployment(pods[0]) == Deployment(pods[2]) != Deployment(pods[1]) == Deployment(pods[3])
  }

  lemma PairedInterleave(pods: seq<PodObject>, s: seq<PodObject>)
    requires Paired(pods) && |s| == 4 && s[2] == pods[2] && s[3] == pods[3]
    requires Permutes(multiset(s[..2]), ByName(pods[..2]))
    ensures Interleaved(s)
  {
    ByNamePermutes(pods[..2]);
    PermutesOnce(multiset(pods[..2]), multiset(s[..2]), ByName(pods[..2]));
    EitherOrder(s[..2], pods[..2]);
    assert s[0] == s[..2][0] && s[1] == s[..2][1];
  }

  lemma EitherOrder(s: seq<PodObject>, t: seq<PodObject>)
    requires |s| == |t| == 2 && multiset(s) == multiset(t)
    ensures (s[0] == t[0] && s[1] == t[1]) || (s[0] == t[1] && s[1] == t[0])
  {
    assert s == [s[0], s[1]] && t == [t[0], t[1]];
    assert s[0] in multiset(t) && s[1] in multiset(t) && t[0] in multiset(s) && t[1] in multiset(s);
  }

  /** Four pods are stored and a snapshot is taken; two are deleted and the array is read again. */
  method SnapshotThenDelete(pods: seq<PodObject>) returns (reg: PodRegistry, older: PodArray, now: PodArray)
    requires Paired(pods)
    ensures fresh(reg) && fresh(older) && fresh(older.pods) && reg.Ok() && reg.base.valid && reg.cached == now && older != now
    ensures reg.base.registry == ByName(pods[..2])
    ensures now.pods == older.pods == reg.base.buf && now.n == reg.base.n == 2 && older.n == 4 && older.Ok() && older.index.None?
    ensures Interleaved(older.pods[..4]) && Permutes(multiset(older.pods[..4][..2]), reg.base.registry)
  {
    reg := StoreAll(pods);
    older := reg.Array();
    ghost var before := older.pods[..];
    assert before[..4] == pods;
    DeleteTwo(reg, pods);
    now := reg.Array();
    ByNamePermutes(pods[..2]);
    assert now.n == |multiset(now.pods[..now.n])| == 2;
    ghost var after := older.pods[..];
    assert after[2..] == before[2..];
    assert after[2] == before[..4][2] && after[3] == before[..4][3];
    assert after[..4][..2] == after[..2];
    PairedInterleave(pods, after[..4]);
  }

  method IndexSpoils(older: PodArray, ghost m: map<string, PodObject>)
    requires older.Ok() && older.index.None? && older.n == 4
    requires Interleaved(older.pods[..][..4]) && Permutes(multiset(older.pods[..][..4][..2]), m)
    modifies older, older.pods
    ensures !Permutes(multiset(older.pods[..2]), m)
  {
    ghost var before := older.pods[..];
    var r := older.ListByIndex("");
    ghost var after := older.pods[..];
    InterleavedSpoils(before[..4], after[..4], m);
    assert after[..4][..2] == after[..2];
  }

  /**
   * A run that spoils a registry, whatever orders its map and its sorts choose: the snapshot taken before the
   * deletions is indexed, and the array the registry goes on handing out no longer holds the pods of its map.
   */
  method StaleSnapshotSpoils(pods: seq<PodObject>) returns (reg: PodRegistry, now: PodArray)
    requires Paired(pods)
    ensures reg.base.registry == ByName(pods[..2])
    ensures reg.base.valid && reg.cached == now && now.pods == reg.base.buf && now.n == reg.base.n
    ensures now.n <= now.pods.Length && !Permutes(multiset(now.pods[..now.n]), reg.base.registry)
  {
    var older;
    reg, older, now := SnapshotThenDelete(pods);
    IndexSpoils(older, reg.base.registry);
  }
}
