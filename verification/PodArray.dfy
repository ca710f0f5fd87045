/** A snapshot of a model's pods, indexed by deployment on first use by sorting the shared slice in place. */
module PodArrays {
  import opened Collections

  const DEPLOYMENT_LABEL := "app.kubernetes.io/name"

  /** A Kubernetes pod object as an informer delivers it; `version` tells apart two objects of one pod. */
  datatype PodObject = PodObject(name: string, labels: map<string, string>, version: int)

  /** The deployment a pod belongs to; a missing label counts as "". */
  function Deployment(p: PodObject): string {
    if DEPLOYMENT_LABEL in p.labels then p.labels[DEPLOYMENT_LABEL] else ""
  }

  /** The pod carries the deployment's name as its label, or has no such label and the name is empty. */
  predicate Belongs(p: PodObject, deployment: string) {
    if "app.kubernetes.io/name" in p.labels then p.labels["app.kubernetes.io/name"] == deployment else deployment == ""
  }

  /** Class number by pod name, as the sort reads it. */
  type Classes = map<string, nat>

  predicate Numbers(k: Classes, s: seq<PodObject>) { forall i :: 0 <= i < |s| ==> s[i].name in k }

  predicate Ordered(k: Classes, s: seq<PodObject>)
    requires Numbers(k, s)
  {
    forall i, j :: 0 <= i < j < |s| ==> k[s[i].name] <= k[s[j].name]
  }

  function Insert(k: Classes, p: PodObject, s: seq<PodObject>): (r: seq<PodObject>)
    requires Numbers(k, s) && p.name in k
    ensures Numbers(k, r)
  {
    if s == [] || k[p.name] <= k[s[0].name] then [p] + s
    else [s[0]] + Insert(k, p, s[1..])
  }

  /** Stands in for sort.Slice: any permutation in class order would do. */
  function SortByClass(k: Classes, s: seq<PodObject>): (r: seq<PodObject>)
    requires Numbers(k, s)
    ensures Numbers(k, r)
  {
    if s == [] then [] else Insert(k, s[0], SortByClass(k, s[1..]))
  }

  lemma {:induction false} InsertPermutes(k: Classes, p: PodObject, s: seq<PodObject>)
    requires Numbers(k, s) && p.name in k
    ensures multiset(Insert(k, p, s)) == multiset(s) + multiset{p}
  {
    if !(s == [] || k[p.name] <= k[s[0].name]) {
      assert s == [s[0]] + s[1..];
      InsertPermutes(k, p, s[1..]);
    }
  }

  lemma {:induction false} InsertOrdered(k: Classes, p: PodObject, s: seq<PodObject>)
    requires Numbers(k, s) && p.name in k && Ordered(k, s)
    ensures Ordered(k, Insert(k, p, s))
    ensures forall i :: 0 <= i < |Insert(k, p, s)| ==> Insert(k, p, s)[i] == p || Insert(k, p, s)[i] in s
  {
    if !(s == [] || k[p.name] <= k[s[0].name]) {
      InsertOrdered(k, p, s[1..]);
    }
  }

  lemma {:induction false} SortByClassSorts(k: Classes, s: seq<PodObject>)
    requires Numbers(k, s)
    ensures multiset(SortByClass(k, s)) == multiset(s) && |SortByClass(k, s)| == |s|
    ensures Ordered(k, SortByClass(k, s))
  {
    if s != [] {
      assert s == [s[0]] + s[1..];
      SortByClassSorts(k, s[1..]);
      InsertPermutes(k, s[0], SortByClass(k, s[1..]));
      InsertOrdered(k, s[0], SortByClass(k, s[1..]));
    }
    assert |multiset(SortByClass(k, s))| == |multiset(s)|;
  }

  /** What sort.Slice may leave behind: any permutation in class order. */
  ghost predicate MaySort(k: Classes, s: seq<PodObject>, r: seq<PodObject>) {
    multiset(r) == multiset(s) && Numbers(k, r) && Ordered(k, r)
  }

  /** Pods of one name belong to one deployment. */
  ghost predicate Consistent(s: seq<PodObject>) {
    forall i, j :: 0 <= i < |s| && 0 <= j < |s| && s[i].name == s[j].name ==> Deployment(s[i]) == Deployment(s[j])
  }

  /** Same class exactly when same deployment. */
  ghost predicate Faithful(k: Classes, s: seq<PodObject>)
    requires Numbers(k, s)
  {
    forall i, j :: 0 <= i < |s| && 0 <= j < |s| ==>
      (k[s[i].name] == k[s[j].name] <==> Deployment(s[i]) == Deployment(s[j]))
  }

  /** Deployments are numbered in order of first appearance. */
  function Numbering(s: seq<PodObject>): map<string, nat> {
    if s == [] then map[] else
      var c, d := Numbering(s[..|s| - 1]), Deployment(s[|s| - 1]);
      if d in c then c else c[d := |c|]
  }

  ghost function Deployments(s: seq<PodObject>): set<string> { set p | p in s :: Deployment(p) }

  lemma DeploymentsAppend(s: seq<PodObject>, p: PodObject)
    ensures Deployments(s + [p]) == Deployments(s) + {Deployment(p)}
  {
    forall d ensures d in Deployments(s + [p]) <==> d in Deployments(s) + {Deployment(p)} {
      assert p in s + [p];
    }
  }

  lemma {:induction false} NumberingKeys(s: seq<PodObject>)
    ensures Numbering(s).Keys == Deployments(s) && |Numbering(s)| == |Deployments(s)|
  {
    if s != [] {
      var front, last := s[..|s| - 1], s[|s| - 1];
      NumberingKeys(front);
      assert s == front + [last];
      DeploymentsAppend(front, last);
    }
  }

  /** A pod's class is its deployment's number; a later pod of the same name overrides. */
  function ClassesOf(s: seq<PodObject>): Classes {
    if s == [] then map[] else
      var d := Deployment(s[|s| - 1]);
      NumberingHas(s, |s| - 1);
      ClassesOf(s[..|s| - 1])[s[|s| - 1].name := Numbering(s)[d]]
  }

  lemma {:induction false} NumberingHas(s: seq<PodObject>, i: nat)
    requires i < |s|
    ensures Deployment(s[i]) in Numbering(s)
  {
    if i < |s| - 1 { NumberingHas(s[..|s| - 1], i); }
  }

  lemma {:induction false} NumberingDistinct(s: seq<PodObject>)
    ensures forall d :: d in Numbering(s) ==> Numbering(s)[d] < |Numbering(s)|
    ensures forall d, e :: d in Numbering(s) && e in Numbering(s) && d != e ==> Numbering(s)[d] != Numbering(s)[e]
  {
    if s != [] { NumberingDistinct(s[..|s| - 1]); }
  }

  lemma {:induction false} NumberingGrows(s: seq<PodObject>, i: nat, d: string)
    requires i <= |s| && d in Numbering(s[..i])
    ensures d in Numbering(s) && Numbering(s)[d] == Numbering(s[..i])[d]
  {
    if i < |s| {
      assert s[..|s| - 1][..i] == s[..i];
      NumberingGrows(s[..|s| - 1], i, d);
    } else {
      assert s[..i] == s;
    }
  }

  /** There are at most as many classes as deployments, whatever the names. */
  lemma {:induction false} ClassesBounded(s: seq<PodObject>, name: string)
    requires name in ClassesOf(s)
    ensures ClassesOf(s)[name] < |Numbering(s)|
  {
    var front, last := s[..|s| - 1], s[|s| - 1];
    NumberingDistinct(s);
    NumberingHas(s, |s| - 1);
    if name != last.name { ClassesBounded(front, name); }
  }

  /** With consistent names a pod's class is its own deployment's number. */
  lemma {:induction false} ClassIsNumber(s: seq<PodObject>, i: nat)
    requires i < |s|
    ensures s[i].name in ClassesOf(s) && Deployment(s[i]) in Numbering(s)
    ensures Consistent(s) ==> ClassesOf(s)[s[i].name] == Numbering(s)[Deployment(s[i])]
  {
    var n := |s| - 1;
    NumberingHas(s, i);
    if i < n {
      assert s[..n][i] == s[i];
      ClassIsNumber(s[..n], i);
      if Consistent(s) {
        assert Consistent(s[..n]);
        NumberingGrows(s, n, Deployment(s[i]));
      }
    }
  }

  lemma ClassesFaithful(s: seq<PodObject>)
    ensures Numbers(ClassesOf(s), s) && (Consistent(s) ==> Faithful(ClassesOf(s), s))
  {
    var k := ClassesOf(s);
    forall i | 0 <= i < |s| ensures s[i].name in k { ClassIsNumber(s, i); }
    if Consistent(s) {
      NumberingDistinct(s);
      forall i, j | 0 <= i < |s| && 0 <= j < |s|
        ensures k[s[i].name] == k[s[j].name] <==> Deployment(s[i]) == Deployment(s[j])
      {
        ClassIsNumber(s, i);
        ClassIsNumber(s, j);
      }
    }
  }

  /** Properties of the elements of a sequence survive any reordering. */
  lemma Reordered(k: Classes, s: seq<PodObject>, r: seq<PodObject>)
    requires multiset(s) == multiset(r) && Numbers(k, s)
    ensures Numbers(k, r) && (Faithful(k, s) <==> Faithful(k, r))
    ensures Consistent(s) <==> Consistent(r)
    ensures forall p :: p in s <==> p in r
  {
    forall p ensures p in s <==> p in r {
      assert p in s <==> p in multiset(s);
      assert p in r <==> p in multiset(r);
    }
    assert forall i :: 0 <= i < |r| ==> r[i] in s;
    assert forall i :: 0 <= i < |s| ==> s[i] in r;
  }

  type Range = (nat, nat)

  /** `r` is one whole class of the sorted sequence. */
  ghost predicate WholeClass(k: Classes, s: seq<PodObject>, r: Range)
    requires Numbers(k, s)
  {
    && r.0 < r.1 <= |s|
    && forall j :: 0 <= j < |s| ==> (r.0 <= j < r.1 <==> k[s[j].name] == k[s[r.0].name])
  }

  /** The slice listed under each deployment is exactly that deployment's pods. */
  ghost predicate ListsExactly(s: seq<PodObject>, index: map<string, Range>) {
    && (forall d :: d in index ==> index[d].0 < index[d].1 <= |s|)
    && forall d, j :: 0 <= j < |s| ==>
         (Deployment(s[j]) == d <==> d in index && index[d].0 <= j < index[d].1)
  }

  /** One shared class is enough to spoil the listing: two pods of one name in different deployments. */
  lemma SharedNameSpoils(k: Classes, s: seq<PodObject>, index: map<string, Range>)
    requires Numbers(k, s) && forall d :: d in index ==> WholeClass(k, s, index[d])
    requires ListsExactly(s, index)
    ensures Consistent(s)
  {
    forall i, j | 0 <= i < |s| && 0 <= j < |s| && s[i].name == s[j].name
      ensures Deployment(s[i]) == Deployment(s[j])
    {
      var d := Deployment(s[i]);
      assert d in index && WholeClass(k, s, index[d]);
      assert index[d].0 <= j < index[d].1;
    }
  }

  /** Every entry is a whole class of `s`, named after its first pod and ending by `end`. */
  ghost predicate Cuts(k: Classes, s: seq<PodObject>, index: map<string, Range>, end: nat)
    requires Numbers(k, s)
  {
    forall d :: d in index ==> WholeClass(k, s, index[d]) && index[d].1 <= end && d == Deployment(s[index[d].0])
  }

  /** If classes are faithful, everything before `end` is listed under its own name and `s[end]` is new. */
  ghost predicate Covers(k: Classes, s: seq<PodObject>, index: map<string, Range>, end: nat)
    requires Numbers(k, s) && end <= |s|
  {
    Faithful(k, s) ==>
      && (forall j :: 0 <= j < end ==>
            Deployment(s[j]) in index && index[Deployment(s[j])].0 <= j < index[Deployment(s[j])].1)
      && (end < |s| ==> Deployment(s[end]) !in index)
  }

  ghost predicate ListedOnce(order: seq<string>, index: map<string, Range>) {
    && (forall d :: d in order <==> d in index)
    && (forall a, b :: 0 <= a < b < |order| ==> order[a] != order[b])
  }

  /** The open class runs from `offset` up to `i`. */
  ghost predicate OpenRun(k: Classes, s: seq<PodObject>, offset: nat, i: nat)
    requires Numbers(k, s)
  {
    && offset < |s| && offset <= i <= |s|
    && (forall j :: offset <= j < i ==> k[s[j].name] == k[s[offset].name])
    && (offset > 0 ==> k[s[offset - 1].name] < k[s[offset].name])
  }

  lemma RunIsWholeClass(k: Classes, s: seq<PodObject>, offset: nat, i: nat)
    requires Numbers(k, s) && Ordered(k, s) && OpenRun(k, s, offset, i) && offset < i
    requires i < |s| ==> k[s[i].name] != k[s[offset].name]
    ensures WholeClass(k, s, (offset, i))
    ensures i < |s| ==> OpenRun(k, s, i, i)
  {
  }

  lemma CutNames(k: Classes, s: seq<PodObject>, index: map<string, Range>, i: nat)
    requires Numbers(k, s) && Faithful(k, s) && Cuts(k, s, index, i) && i < |s|
    ensures Deployment(s[i]) !in index
  {
    forall d | d in index ensures d != Deployment(s[i]) {
      assert WholeClass(k, s, index[d]) && !(index[d].0 <= i < index[d].1);
      assert k[s[i].name] != k[s[index[d].0].name];
    }
  }

  /** One more class is complete. */
  lemma CutStep(k: Classes, s: seq<PodObject>, index: map<string, Range>, offset: nat, i: nat)
    requires Numbers(k, s) && offset < i <= |s| && WholeClass(k, s, (offset, i))
    requires Cuts(k, s, index, offset) && Covers(k, s, index, offset)
    ensures Cuts(k, s, index[Deployment(s[offset]) := (offset, i)], i)
    ensures Covers(k, s, index[Deployment(s[offset]) := (offset, i)], i)
  {
    var index' := index[Deployment(s[offset]) := (offset, i)];
    assert Cuts(k, s, index', i);
    if Faithful(k, s) {
      assert forall j :: offset <= j < i ==> Deployment(s[j]) == Deployment(s[offset]);
      if i < |s| { CutNames(k, s, index', i); }
    }
  }

  lemma ListedStep(order: seq<string>, index: map<string, Range>, d: string, r: Range)
    requires ListedOnce(order, index) && d !in index
    ensures ListedOnce(order + [d], index[d := r])
  {
    assert forall e :: e in order + [d] <==> e in order || e == d;
  }

  lemma CoveredExactly(k: Classes, s: seq<PodObject>, index: map<string, Range>)
    requires Numbers(k, s) && Cuts(k, s, index, |s|) && Covers(k, s, index, |s|) && Faithful(k, s)
    ensures ListsExactly(s, index)
  {
    forall d, j | 0 <= j < |s| && d in index && index[d].0 <= j < index[d].1 ensures Deployment(s[j]) == d {
      assert k[s[j].name] == k[s[index[d].0].name];
    }
  }

  ghost predicate SplitSoFar(k: Classes, s: seq<PodObject>, index: map<string, Range>, done: seq<string>, offset: nat)
    requires Numbers(k, s)
  {
    && offset <= |s| && Cuts(k, s, index, offset) && Covers(k, s, index, offset)
    && (Faithful(k, s) ==> ListedOnce(done, index))
  }

  lemma SplitStep(k: Classes, s: seq<PodObject>, index: map<string, Range>, done: seq<string>, offset: nat, i: nat)
    requires Numbers(k, s) && Ordered(k, s) && OpenRun(k, s, offset, i) && offset < i
    requires SplitSoFar(k, s, index, done, offset)
    requires i < |s| ==> k[s[i].name] != k[s[offset].name]
    ensures i < |s| ==> OpenRun(k, s, i, i)
    ensures SplitSoFar(k, s, index[Deployment(s[offset]) := (offset, i)], done + [Deployment(s[offset])], i)
  {
    RunIsWholeClass(k, s, offset, i);
    CutStep(k, s, index, offset, i);
    if Faithful(k, s) {
      ListedStep(done, index, Deployment(s[offset]), (offset, i));
    }
  }

  lemma OpenMore(k: Classes, s: seq<PodObject>, offset: nat, i: nat)
    requires Numbers(k, s) && OpenRun(k, s, offset, i) && i < |s| && k[s[i].name] == k[s[offset].name]
    ensures OpenRun(k, s, offset, i + 1)
  {
  }

  lemma TailAppend(a: seq<string>, d: string, e: string)
    ensures (a + [d] + [e])[1..] == (a + [d])[1..] + [e]
  {
  }

  /** Each cut is a class of its own, so the open run's class is at least the number of cuts. */
  ghost predicate Few(k: Classes, s: seq<PodObject>, done: seq<string>, offset: nat)
    requires Numbers(k, s)
  {
    offset < |s| && |done| <= k[s[offset].name] && forall d :: d in done ==> d in Deployments(s)
  }

  lemma FewStep(k: Classes, s: seq<PodObject>, done: seq<string>, offset: nat, i: nat)
    requires Numbers(k, s) && Ordered(k, s) && Few(k, s, done, offset) && offset < i < |s|
    requires k[s[i].name] != k[s[offset].name]
    ensures Few(k, s, done + [Deployment(s[offset])], i)
  {
    assert s[offset] in s;
  }

  /** Where the splitting loop stands: an open run from `offset`, everything before it cut. */
  ghost predicate Splitting(k: Classes, s: seq<PodObject>, index: map<string, Range>, done: seq<string>, offset: nat, i: nat)
    requires Numbers(k, s)
  {
    OpenRun(k, s, offset, i) && SplitSoFar(k, s, index, done, offset) && Few(k, s, done, offset)
  }

  lemma SplittingStarts(k: Classes, s: seq<PodObject>)
    requires s != [] && Numbers(k, s)
    ensures Splitting(k, s, map[], [], 0, 0)
  {
  }

  lemma SplittingCuts(k: Classes, s: seq<PodObject>, index: map<string, Range>, done: seq<string>, offset: nat, i: nat)
    requires Numbers(k, s) && Ordered(k, s) && Splitting(k, s, index, done, offset, i) && i < |s|
    requires k[s[i].name] != k[s[offset].name]
    ensures Splitting(k, s, index[Deployment(s[offset]) := (offset, i)], done + [Deployment(s[offset])], i, i + 1)
  {
    SplitStep(k, s, index, done, offset, i);
    OpenMore(k, s, i, i);
    FewStep(k, s, done, offset, i);
  }

  lemma SplittingGoesOn(k: Classes, s: seq<PodObject>, index: map<string, Range>, done: seq<string>, offset: nat, i: nat)
    requires Numbers(k, s) && Splitting(k, s, index, done, offset, i) && i < |s|
    requires k[s[i].name] == k[s[offset].name]
    ensures Splitting(k, s, index, done, offset, i + 1)
  {
    OpenMore(k, s, offset, i);
  }

  /** What the finished index promises. */
  ghost predicate SplitUp(k: Classes, s: seq<PodObject>, index: map<string, Range>)
    requires Numbers(k, s)
  {
    (forall d :: d in index ==> WholeClass(k, s, index[d])) && (Faithful(k, s) ==> ListsExactly(s, index))
  }

  /** The names collected while splitting: the slice order without its first and with its last twice. */
  ghost predicate Skewed(names: seq<string>, order: seq<string>) {
    |order| > 0 && names == order[1..] + [order[|order| - 1]]
  }

  /** Names of deployments, at most one for each class up to the last. */
  ghost predicate Listed(k: Classes, s: seq<PodObject>, order: seq<string>)
    requires Numbers(k, s)
  {
    (forall d :: d in order ==> d in Deployments(s)) && exists j :: 0 <= j < |s| && |order| <= k[s[j].name] + 1
  }

  lemma FewEnds(k: Classes, s: seq<PodObject>, done: seq<string>, offset: nat)
    requires Numbers(k, s) && Few(k, s, done, offset)
    ensures Listed(k, s, done + [Deployment(s[offset])])
  {
    assert s[offset] in s;
  }

  /** Once everything is split. */
  lemma AllSplit(k: Classes, s: seq<PodObject>, index: map<string, Range>, order: seq<string>)
    requires Numbers(k, s) && SplitSoFar(k, s, index, order, |s|)
    ensures SplitUp(k, s, index) && (Faithful(k, s) ==> ListedOnce(order, index) && |index| == |order|)
  {
    if Faithful(k, s) {
      CoveredExactly(k, s, index);
      ListedCount(order, index);
    }
  }

  lemma SplittingEnds(k: Classes, s: seq<PodObject>, index: map<string, Range>, done: seq<string>, offset: nat)
    requires Numbers(k, s) && Ordered(k, s) && Splitting(k, s, index, done, offset, |s|)
    ensures SplitUp(k, s, index[Deployment(s[offset]) := (offset, |s|)])
    ensures Faithful(k, s) ==> ListedOnce(done + [Deployment(s[offset])], index[Deployment(s[offset]) := (offset, |s|)])
    ensures Faithful(k, s) ==> |index[Deployment(s[offset]) := (offset, |s|)]| == |done| + 1
    ensures Listed(k, s, done + [Deployment(s[offset])])
  {
    FewEnds(k, s, done, offset);
    SplitStep(k, s, index, done, offset, |s|);
    AllSplit(k, s, index[Deployment(s[offset]) := (offset, |s|)], done + [Deployment(s[offset])]);
  }

  /** Cuts a sorted slice at every change of class; `order` is the deployments in slice order. */
  method Split(s: seq<PodObject>, k: Classes)
    returns (byName: map<string, Range>, names: seq<string>, ghost order: seq<string>)
    requires s != [] && Numbers(k, s) && Ordered(k, s)
    ensures SplitUp(k, s, byName) && (Faithful(k, s) ==> |names| == |byName|)
    ensures Faithful(k, s) ==> ListedOnce(order, byName)
    ensures Skewed(names, order) && Listed(k, s, order)
  {
    byName, names := map[], [];
    var offset := 0;
    var lastClass, lastName := k[s[0].name], Deployment(s[0]);
    ghost var done := [];
    SplittingStarts(k, s);
    for i := 0 to |s|
      invariant offset < |s| && Splitting(k, s, byName, done, offset, i)
      invariant lastName == Deployment(s[offset]) && lastClass == k[s[offset].name]
      invariant names == (done + [lastName])[1..]
    {
      if k[s[i].name] != lastClass {
        SplittingCuts(k, s, byName, done, offset, i);
        TailAppend(done, lastName, Deployment(s[i]));
        byName := byName[lastName := (offset, i)];
        done := done + [lastName];
        offset, lastClass, lastName := i, k[s[i].name], Deployment(s[i]);
        names := names + [lastName];
      } else {
        SplittingGoesOn(k, s, byName, done, offset, i);
      }
    }
    SplittingEnds(k, s, byName, done, offset);
    byName := byName[lastName := (offset, |s|)];
    names := names + [lastName];
    order := done + [lastName];
  }

  /** Puts a permutation back where the slice was. */
  method Overwrite(a: array<PodObject>, values: seq<PodObject>)
    requires |values| <= a.Length
    modifies a
    ensures a[..|values|] == values && a[|values|..] == old(a[|values|..])
  {
    for i := 0 to |values|
      invariant a[..i] == values[..i] && a[|values|..] == old(a[|values|..])
    {
      a[i] := values[i];
    }
  }

  /** No more names than deployments, and nothing but deployments. */
  ghost predicate Meagre(s: seq<PodObject>, order: seq<string>) {
    (forall d :: d in order ==> d in Deployments(s)) && |order| <= |Deployments(s)|
  }

  /** An array of which only the first m elements were sorted, by the classes of those. */
  ghost predicate SortedPart(before: seq<PodObject>, after: seq<PodObject>, m: nat) {
    && m <= |before| == |after| && after[m..] == before[m..]
    && MaySort(ClassesOf(before[..m]), before[..m], after[..m])
  }

  /** `order` is a history variable: the deployments in slice order. */
  class PodArray {
    const pods: array<PodObject>
    const n: nat
    var index: Option<map<string, Range>>
    var deployments: seq<string>
    ghost var order: seq<string>

    ghost predicate Ok()
      reads this, pods
    {
      n <= pods.Length && (index.Some? ==> IndexOk(pods[..n], index.value, deployments, order))
    }

    constructor (pods: array<PodObject>, n: nat)
      requires n <= pods.Length
      ensures this.pods == pods && this.n == n && index == None && Ok()
    {
      this.pods, this.n := pods, n;
      index, deployments, order := None, [], [];
    }

    method Classify() returns (k: Classes)
      requires n <= pods.Length
      ensures k == ClassesOf(pods[..n])
    {
      var classes: map<string, nat> := map[];
      k := map[];
      var seen := 0;
      for i := 0 to n
        invariant classes == Numbering(pods[..i]) && k == ClassesOf(pods[..i]) && seen == |classes|
      {
        assert pods[..i + 1][..i] == pods[..i];
        NumberingHas(pods[..i + 1], i);
        var d := Deployment(pods[i]);
        var c;
        if d in classes {
          c := classes[d];
        } else {
          c := seen;
          classes := classes[d := seen];
          seen := seen + 1;
        }
        k := k[pods[i].name := c];
      }
    }

    method SortInPlace(k: Classes)
      requires n <= pods.Length && Numbers(k, pods[..n])
      modifies pods
      ensures MaySort(k, old(pods[..n]), pods[..n]) && pods[n..] == old(pods[n..])
    {
      SortByClassSorts(k, pods[..n]);
      var sorted := SortByClass(k, pods[..n]);
      Overwrite(pods, sorted);
    }

    method SortByDeployment() returns (k: Classes)
      requires n <= pods.Length
      modifies pods
      ensures k == ClassesOf(old(pods[..n])) && MaySort(k, old(pods[..n]), pods[..n]) && pods[n..] == old(pods[n..])
    {
      k := Classify();
      ClassesFaithful(pods[..n]);
      SortInPlace(k);
    }

    /**
     * initDeployments: sorts the slice by the classes of its pods. Afterwards the slices listed are exactly
     * the deployments (so contiguous, disjoint and covering) if and only if pods of one name share a
     * deployment. The backing array beyond the slice is untouched and nothing is lost or invented.
     */
    method InitDeployments()
      requires Ok() && n > 0 && index.None?
      modifies this, pods
      ensures Ok() && index.Some?
      ensures ListsExactly(pods[..n], index.value) <==> Consistent(old(pods[..n]))
      ensures MaySort(ClassesOf(old(pods[..n])), old(pods[..n]), pods[..n]) && pods[n..] == old(pods[n..])
    {
      var k := SortByDeployment();
      CutUp(k, old(pods[..n]));
    }

    method CutUp(k: Classes, ghost before: seq<PodObject>)
      requires 0 < n <= pods.Length && k == ClassesOf(before) && MaySort(k, before, pods[..n])
      modifies this
      ensures Ok() && index.Some? && (ListsExactly(pods[..n], index.value) <==> Consistent(before))
    {
      var s := pods[..n];
      var byName, names;
      ghost var cuts;
      byName, names, cuts := Split(s, k);
      IndexedExactly(k, before, s, byName, names, cuts);
      deployments, order, index := names, cuts, Some(byName);
      assert pods[..n] == s;
    }

    /** What a read may do to the array: sort its own slice, if it was not indexed yet. */
    twostate predicate Reread()
      reads this, pods
    {
      if old(index).Some? || n == 0 then pods[..] == old(pods[..]) else SortedPart(old(pods[..]), pods[..], n)
    }

    method EnsureIndexed()
      requires Ok() && n > 0
      modifies this, pods
      ensures Ok() && Reread() && index.Some? && multiset(pods[..n]) == multiset(old(pods[..n]))
    {
      if index.None? { InitDeployments(); }
    }

    /** The slice kept under the deployment, if any. */
    method Slice(deployment: string) returns (r: seq<PodObject>)
      requires Ok() && index.Some?
      ensures exists lo: nat, hi: nat :: lo <= hi <= n && r == pods[..n][lo..hi]
      ensures Consistent(pods[..n]) ==> forall p :: p in r <==> p in pods[..n] && Deployment(p) == deployment
    {
      if deployment in index.value {
        var (lo, hi) := index.value[deployment];
        r := pods[..n][lo..hi];
        if Consistent(pods[..n]) { SliceExact(pods[..n], index.value, deployment); }
      } else {
        r := [];
        assert pods[..n][0..0] == r;
        if Consistent(pods[..n]) { NoSlice(pods[..n], index.value, deployment); }
      }
    }

    /** One contiguous slice; exactly the deployment's pods whenever pods of one name share a deployment. */
    method ListByIndex(deployment: string) returns (r: seq<PodObject>)
      requires Ok()
      modifies this, pods
      ensures Ok() && Reread()
      ensures exists lo: nat, hi: nat :: lo <= hi <= n && r == pods[..n][lo..hi]
      ensures Consistent(old(pods[..n])) ==> forall p :: p in r <==> p in old(pods[..n]) && Belongs(p, deployment)
    {
      if n == 0 {
        r := [];
        assert pods[..n][0..0] == r;
        return;
      }
      EnsureIndexed();
      SameMembers(old(pods[..n]), pods[..n]);
      r := Slice(deployment);
    }

    /** The names of the deployments: all of them exactly when there is just one. */
    method Indexes() returns (names: seq<string>)
      requires Ok()
      modifies this, pods
      ensures Ok() && Reread()
      ensures n > 0 ==>
        ((forall p :: p in old(pods[..n]) ==> exists d :: d in names && Belongs(p, d)) <==> OneDeployment(old(pods[..n])))
      ensures forall d :: d in names ==> exists p :: p in old(pods[..n]) && Belongs(p, d)
    {
      if n == 0 { return []; }
      EnsureIndexed();
      SameMembers(old(pods[..n]), pods[..n]);
      names := deployments;
      NamesComplete(pods[..n], order, names);
    }
  }

  ghost predicate OneDeployment(s: seq<PodObject>) {
    forall p, q, d :: p in s && q in s ==> (Belongs(p, d) <==> Belongs(q, d))
  }

  ghost predicate IndexOk(s: seq<PodObject>, index: map<string, Range>, names: seq<string>, order: seq<string>) {
    && (forall d :: d in index ==> index[d].0 < index[d].1 <= |s|)
    && Skewed(names, order) && Meagre(s, order)
    && (Consistent(s) ==> ListsExactly(s, index) && ListedOnce(order, index))
  }

  lemma DeploymentsReordered(s: seq<PodObject>, r: seq<PodObject>)
    requires multiset(s) == multiset(r)
    ensures Deployments(s) == Deployments(r)
  {
    SameMembers(s, r);
  }

  lemma MeagreKept(s: seq<PodObject>, r: seq<PodObject>, order: seq<string>)
    requires multiset(s) == multiset(r) && Meagre(s, order)
    ensures Meagre(r, order)
  {
    DeploymentsReordered(s, r);
  }

  lemma ListedIsMeagre(before: seq<PodObject>, s: seq<PodObject>, order: seq<string>)
    requires MaySort(ClassesOf(before), before, s) && Listed(ClassesOf(before), s, order)
    ensures Meagre(s, order)
  {
    var j :| 0 <= j < |s| && |order| <= ClassesOf(before)[s[j].name] + 1;
    ClassesBounded(before, s[j].name);
    NumberingKeys(before);
    DeploymentsReordered(before, s);
  }

  lemma IndexedExactly(k: Classes, before: seq<PodObject>, s: seq<PodObject>, index: map<string, Range>,
                       names: seq<string>, order: seq<string>)
    requires k == ClassesOf(before) && MaySort(k, before, s) && Skewed(names, order) && Listed(k, s, order)
    requires SplitUp(k, s, index) && (Faithful(k, s) ==> ListedOnce(order, index))
    ensures IndexOk(s, index, names, order) && (ListsExactly(s, index) <==> Consistent(before))
  {
    ClassesFaithful(before);
    Reordered(k, before, s);
    ListedIsMeagre(before, s, order);
    if ListsExactly(s, index) { SharedNameSpoils(k, s, index); }
  }

  lemma SameMembers(s: seq<PodObject>, r: seq<PodObject>)
    requires multiset(s) == multiset(r)
    ensures |s| == |r| && (forall p :: p in s <==> p in r) && (Consistent(s) <==> Consistent(r))
  {
    assert |multiset(s)| == |multiset(r)|;
    assert forall p :: p in s <==> p in multiset(s);
    assert forall p :: p in r <==> p in multiset(r);
    if Consistent(s) { ConsistentReordered(s, r); }
    if Consistent(r) { ConsistentReordered(r, s); }
  }

  lemma ConsistentReordered(s: seq<PodObject>, r: seq<PodObject>)
    requires multiset(s) == multiset(r) && Consistent(s)
    ensures Consistent(r)
  {
    forall i | 0 <= i < |r| ensures r[i] in s {
      assert r[i] in multiset(r);
    }
  }

  lemma SliceExact(s: seq<PodObject>, index: map<string, Range>, d: string)
    requires ListsExactly(s, index) && d in index
    ensures forall p :: p in s[index[d].0..index[d].1] <==> p in s && Deployment(p) == d
  {
    var (lo, hi) := index[d];
    forall p | p in s && Deployment(p) == d ensures p in s[lo..hi] {
      var j :| 0 <= j < |s| && s[j] == p;
      assert s[lo..hi][j - lo] == p;
    }
  }

  lemma NoSlice(s: seq<PodObject>, index: map<string, Range>, d: string)
    requires ListsExactly(s, index) && d !in index
    ensures forall p :: p in s ==> Deployment(p) != d
  {
  }

  lemma {:induction false} ListedCount(order: seq<string>, index: map<string, Range>)
    requires ListedOnce(order, index)
    ensures |index| == |order|
    decreases |order|
  {
    if order == [] {
      assert index == map[];
    } else {
      var front, last := order[..|order| - 1], order[|order| - 1];
      assert order == front + [last];
      assert forall d :: d in front <==> d in index - {last};
      ListedCount(front, index - {last});
      assert (index - {last}).Keys == index.Keys - {last};
    }
  }

  lemma {:induction false} NamesOf(names: seq<string>) returns (all: set<string>)
    ensures |all| <= |names| && forall d :: d in names <==> d in all
  {
    if names == [] {
      all := {};
    } else {
      all := NamesOf(names[1..]);
      all := all + {names[0]};
    }
  }

  lemma OneName(s: seq<PodObject>)
    requires s != []
    ensures OneDeployment(s) <==> |Deployments(s)| <= 1
  {
    var d := Deployment(s[0]);
    assert s[0] in s && d in Deployments(s);
    if OneDeployment(s) {
      forall p | p in s ensures Deployment(p) == d { assert Belongs(s[0], d); }
      assert Deployments(s) == {d};
    } else if |Deployments(s)| <= 1 {
      var p, q :| p in s && q in s && Deployment(p) != Deployment(q);
      assert {Deployment(p), Deployment(q)} <= Deployments(s);
      FewerElements({Deployment(p), Deployment(q)}, Deployments(s));
    }
  }

  lemma {:induction false} FewerElements<T>(a: set<T>, b: set<T>)
    requires a <= b
    ensures |a| <= |b|
  {
    if a != {} {
      var x :| x in a;
      FewerElements(a - {x}, b - {x});
    }
  }

  /** The names miss the first cut, and there are no more cuts than deployments: some deployment is not named. */
  lemma NamesComplete(s: seq<PodObject>, order: seq<string>, names: seq<string>)
    requires s != [] && Skewed(names, order) && Meagre(s, order)
    ensures (forall p :: p in s ==> exists d :: d in names && Belongs(p, d)) <==> OneDeployment(s)
    ensures forall d :: d in names ==> exists p :: p in s && Belongs(p, d)
  {
    forall p, d ensures Belongs(p, d) <==> Deployment(p) == d { }
    OneName(s);
    forall d | d in names ensures d in order && d in Deployments(s) { }
    if OneDeployment(s) {
      assert names[0] in names;
    } else if forall p :: p in s ==> Deployment(p) in names {
      var all := NamesOf(if |order| > 1 then order[1..] else names);
      if |order| > 1 { assert order[1..][|order| - 2] == order[|order| - 1]; }
      FewerElements(Deployments(s), all);
    }
  }
}
