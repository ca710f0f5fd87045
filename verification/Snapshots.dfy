/**
 * Two slices of one backing array: a current one of length n and an older snapshot that may be shorter or
 * longer. Indexing the older one sorts its part of the array, in any order the sort may choose. This module
 * says, on sequences, when that leaves the current slice as it should be.
 */
module Snapshots {
  import opened PodArrays

  /** Every pod beyond the first n has a larger class than every different pod among them. */
  ghost predicate Apart(k: Classes, s: seq<PodObject>, n: nat)
    requires Numbers(k, s)
  {
    forall i, j :: 0 <= i < n && n <= j < |s| && i < |s| ==> s[i] == s[j] || k[s[i].name] < k[s[j].name]
  }

  /** However the sort orders the pods, the first n stay the same pods. */
  ghost predicate FrontKept(k: Classes, s: seq<PodObject>, n: nat)
    requires n <= |s|
  {
    forall r :: MaySort(k, s, r) ==> |r| == |s| && multiset(r[..n]) == multiset(s[..n])
  }

  lemma MoreOf(a: multiset<PodObject>, b: multiset<PodObject>) returns (p: PodObject)
    requires |a| == |b| && a != b
    ensures a[p] > b[p]
  {
    assert b == a + (b - a) ==> |b - a| == 0;
    assert (forall q :: a[q] <= b[q]) ==> b == a + (b - a);
    p :| a[p] > b[p];
  }

  lemma Halves(s: seq<PodObject>, n: nat)
    requires n <= |s|
    ensures multiset(s) == multiset(s[..n]) + multiset(s[n..])
  {
    assert s == s[..n] + s[n..];
  }

  /** What the front gains of a pod the back loses. */
  lemma Traded(s: seq<PodObject>, r: seq<PodObject>, n: nat, p: PodObject)
    requires multiset(s) == multiset(r) && n <= |s| && n <= |r|
    ensures multiset(s[..n])[p] + multiset(s[n..])[p] == multiset(r[..n])[p] + multiset(r[n..])[p]
  {
    Halves(s, n);
    Halves(r, n);
    assert multiset(s)[p] == multiset(r)[p];
  }

  lemma FrontPod(s: seq<PodObject>, n: nat, p: PodObject) returns (i: nat)
    requires n <= |s| && p in multiset(s[..n])
    ensures i < n && s[i] == p
  {
    assert p in s[..n];
    i :| 0 <= i < n && s[..n][i] == p;
  }

  lemma BackPod(s: seq<PodObject>, n: nat, p: PodObject) returns (j: nat)
    requires n <= |s| && p in multiset(s[n..])
    ensures n <= j < |s| && s[j] == p
  {
    assert p in s[n..];
    var i :| 0 <= i < |s| - n && s[n..][i] == p;
    j := n + i;
  }

  lemma ApartKeeps(k: Classes, s: seq<PodObject>, n: nat, r: seq<PodObject>)
    requires n <= |s| && Numbers(k, s) && Apart(k, s, n) && MaySort(k, s, r)
    ensures |r| == |s| && multiset(r[..n]) == multiset(s[..n])
  {
    SameMembers(s, r);
    var f, g := multiset(s[..n]), multiset(r[..n]);
    if f != g {
      var u := MoreOf(f, g);
      var v := MoreOf(g, f);
      Crossed(k, s, n, r, u, v);
    }
  }

  /** A pod that left the front and one that came in are not apart. */
  lemma Crossed(k: Classes, s: seq<PodObject>, n: nat, r: seq<PodObject>, u: PodObject, v: PodObject)
    requires n <= |s| == |r| && Numbers(k, s) && MaySort(k, s, r)
    requires multiset(s[..n])[u] > multiset(r[..n])[u] && multiset(r[..n])[v] > multiset(s[..n])[v]
    ensures !Apart(k, s, n)
  {
    Traded(s, r, n, u);
    Traded(s, r, n, v);
    var i := FrontPod(s, n, u);
    var j := BackPod(s, n, v);
    var a := FrontPod(r, n, v);
    var b := BackPod(r, n, u);
    assert k[r[a].name] <= k[r[b].name];
    assert s[i] != s[j] && k[s[j].name] <= k[s[i].name];
  }

  function Swapped(r: seq<PodObject>, a: nat, b: nat): seq<PodObject>
    requires a < |r| && b < |r|
  {
    r[a := r[b]][b := r[a]]
  }

  lemma SwapSorted(k: Classes, s: seq<PodObject>, r: seq<PodObject>, a: nat, b: nat)
    requires MaySort(k, s, r) && a < b < |r| && k[r[a].name] == k[r[b].name]
    ensures MaySort(k, s, Swapped(r, a, b))
  {
    var w := Swapped(r, a, b);
    assert multiset(w) == multiset(r);
    forall i | 0 <= i < |w| ensures w[i].name in k && k[w[i].name] == k[r[i].name] { }
  }

  lemma SwapMoves(r: seq<PodObject>, a: nat, b: nat, n: nat)
    requires a < n <= b < |r| && r[a] != r[b]
    ensures multiset(Swapped(r, a, b)[..n]) != multiset(r[..n])
  {
    assert Swapped(r, a, b)[..n] == r[..n][a := r[b]];
    assert multiset(r[..n][a := r[b]]) == multiset(r[..n]) - multiset{r[a]} + multiset{r[b]};
    assert multiset(Swapped(r, a, b)[..n])[r[b]] == multiset(r[..n])[r[b]] + 1;
  }

  /** If a pod beyond n belongs before, or could be exchanged with, a different one inside, some order moves it. */
  lemma SomeOrderMoves(k: Classes, s: seq<PodObject>, n: nat, i: nat, j: nat) returns (r: seq<PodObject>)
    requires Numbers(k, s) && i < n <= j < |s| && s[i] != s[j] && k[s[i].name] >= k[s[j].name]
    ensures MaySort(k, s, r) && |r| == |s| && multiset(r[..n]) != multiset(s[..n])
  {
    SortByClassSorts(k, s);
    r := SortByClass(k, s);
    if multiset(r[..n]) == multiset(s[..n]) {
      Traded(s, r, n, s[j]);
      assert s[..n][i] in multiset(s[..n]) && s[n..][j - n] in multiset(s[n..]);
      var a := FrontPod(r, n, s[i]);
      var b := BackPod(r, n, s[j]);
      SwapSorted(k, s, r, a, b);
      SwapMoves(r, a, b, n);
      r := Swapped(r, a, b);
    }
  }

  /** The exact condition for the first n pods to survive every sort. */
  lemma SortKeepsFront(k: Classes, s: seq<PodObject>, n: nat)
    requires n <= |s| && Numbers(k, s)
    ensures FrontKept(k, s, n) <==> Apart(k, s, n)
  {
    if Apart(k, s, n) {
      forall r | MaySort(k, s, r) ensures |r| == |s| && multiset(r[..n]) == multiset(s[..n]) {
        ApartKeeps(k, s, n, r);
      }
    } else {
      var i, j :| 0 <= i < n && n <= j < |s| && i < |s| && !(s[i] == s[j] || k[s[i].name] < k[s[j].name]);
      var r := SomeOrderMoves(k, s, n, i, j);
    }
  }

  // --- the current slice's index ---------------------------------------------------------------------------

  /** Both slices start at the beginning of one array. */
  ghost predicate Overlay(s: seq<PodObject>, f: seq<PodObject>) {
    forall i :: 0 <= i < |s| && i < |f| ==> s[i] == f[i]
  }

  /** Where the pods of at least position i's class begin. */
  lemma ClassStart(k: Classes, s: seq<PodObject>, i: nat) returns (j: nat)
    requires Numbers(k, s) && Ordered(k, s) && i < |s|
    ensures j <= i && (forall x :: 0 <= x < j ==> k[s[x].name] < k[s[i].name])
    ensures forall x :: j <= x < |s| ==> k[s[x].name] >= k[s[i].name]
  {
    j := i;
    while j > 0 && k[s[j - 1].name] >= k[s[i].name]
      invariant 0 <= j <= i && forall x :: j <= x < |s| ==> k[s[x].name] >= k[s[i].name]
    {
      j := j - 1;
    }
  }

  lemma NoSmaller(k: Classes, s: seq<PodObject>, r: seq<PodObject>, i: nat)
    requires Numbers(k, s) && Ordered(k, s) && MaySort(k, s, r) && i < |s| == |r|
    ensures k[r[i].name] >= k[s[i].name]
  {
    var j := ClassStart(k, s, i);
    ApartKeeps(k, s, j, r);
    Traded(s, r, j, r[i]);
    assert r[j..][i - j] in multiset(r[j..]);
    var x := BackPod(s, j, r[i]);
  }

  /** Two sorted orders of the same pods show the same classes, position by position. */
  lemma SameClasses(k: Classes, s: seq<PodObject>, r: seq<PodObject>)
    requires Numbers(k, s) && Ordered(k, s) && MaySort(k, s, r)
    ensures |r| == |s| && forall i :: 0 <= i < |s| ==> k[r[i].name] == k[s[i].name]
  {
    SameMembers(s, r);
    forall i | 0 <= i < |s| ensures k[r[i].name] == k[s[i].name] {
      NoSmaller(k, s, r, i);
      NoSmaller(k, r, s, i);
    }
  }

  lemma {:induction false} NumberedSomewhere(s: seq<PodObject>, d: string) returns (y: nat)
    requires d in Numbering(s)
    ensures y < |s| && Deployment(s[y]) == d
  {
    var n := |s| - 1;
    if d in Numbering(s[..n]) {
      y := NumberedSomewhere(s[..n], d);
    } else {
      y := n;
    }
  }

  /** A smaller number appeared before. */
  lemma {:induction false} NumberedBefore(s: seq<PodObject>, x: nat, d: string) returns (y: nat)
    requires x < |s| && d in Numbering(s) && Deployment(s[x]) in Numbering(s)
    requires Numbering(s)[d] < Numbering(s)[Deployment(s[x])]
    ensures y < x && Deployment(s[y]) == d
  {
    var n := |s| - 1;
    NumberingDistinct(s[..n]);
    if x < n { NumberingHas(s[..n], x); }
    assert d in Numbering(s[..n]);
    if x == n {
      y := NumberedSomewhere(s[..n], d);
    } else {
      y := NumberedBefore(s[..n], x, d);
    }
  }

  lemma Between(f: seq<PodObject>, index: map<string, Range>, y: nat, i: nat, j: nat)
    requires y < i < j < |f| && ListsExactly(f, index) && Deployment(f[y]) == Deployment(f[j])
    ensures Deployment(f[i]) == Deployment(f[j])
  {
    var d := Deployment(f[j]);
    assert d in index && index[d].0 <= y && j < index[d].1;
  }

  lemma IndexedPair(s: seq<PodObject>, f: seq<PodObject>, index: map<string, Range>, i: nat, j: nat)
    requires i < j < |s| && j < |f| && Overlay(s, f) && ListsExactly(f, index)
    ensures Deployment(s[i]) in Numbering(s) && Deployment(s[j]) in Numbering(s)
    ensures Numbering(s)[Deployment(s[i])] <= Numbering(s)[Deployment(s[j])]
  {
    NumberingHas(s, i);
    NumberingHas(s, j);
    if Numbering(s)[Deployment(s[j])] < Numbering(s)[Deployment(s[i])] {
      var y := NumberedBefore(s, i, Deployment(s[j]));
      Between(f, index, y, i, j);
    }
  }

  /** A slice whose index is exact is already in class order. */
  lemma IndexedIsOrdered(s: seq<PodObject>, f: seq<PodObject>, index: map<string, Range>, c: nat)
    requires c <= |s| && c <= |f| && Overlay(s, f) && Consistent(s) && ListsExactly(f, index)
    ensures Numbers(ClassesOf(s), s[..c]) && Ordered(ClassesOf(s), s[..c])
  {
    ClassesFaithful(s);
    forall i, j | 0 <= i < j < c ensures ClassesOf(s)[s[..c][i].name] <= ClassesOf(s)[s[..c][j].name] {
      ClassIsNumber(s, i);
      ClassIsNumber(s, j);
      IndexedPair(s, f, index, i, j);
    }
  }

  /** Sorting an older snapshot leaves every position of an indexed slice in its deployment. */
  lemma DeploymentsStay(s: seq<PodObject>, r: seq<PodObject>, f: seq<PodObject>, index: map<string, Range>, c: nat)
    requires c <= |s| && c <= |f| && Overlay(s, f) && Consistent(s) && ListsExactly(f, index)
    requires MaySort(ClassesOf(s), s, r) && Numbers(ClassesOf(s), s) && Apart(ClassesOf(s), s, c)
    ensures |r| == |s| && forall i :: 0 <= i < c ==> Deployment(r[i]) == Deployment(s[i])
  {
    var k := ClassesOf(s);
    ClassesFaithful(s);
    ApartKeeps(k, s, c, r);
    IndexedIsOrdered(s, f, index, c);
    assert MaySort(k, s[..c], r[..c]);
    SameClasses(k, s[..c], r[..c]);
    SameMembers(s, r);
    forall i | 0 <= i < c ensures Deployment(r[i]) == Deployment(s[i]) {
      assert k[r[..c][i].name] == k[s[..c][i].name];
      assert r[i] in s;
      var x :| 0 <= x < |s| && s[x] == r[i];
    }
  }

  /** The slice f of a backing array after the part s of the array was replaced by r. */
  function Rewritten(f: seq<PodObject>, r: seq<PodObject>): seq<PodObject> {
    if |r| <= |f| then r + f[|r|..] else r[..|f|]
  }

  /** When indexing the older snapshot s cannot disturb the current slice f. */
  ghost predicate Harmless(s: seq<PodObject>, f: seq<PodObject>) {
    ClassesFaithful(s);
    |s| <= |f| || Apart(ClassesOf(s), s, |f|)
  }

  lemma ShorterKeeps(s: seq<PodObject>, f: seq<PodObject>, r: seq<PodObject>)
    requires Overlay(s, f) && |s| <= |f| && multiset(r) == multiset(s) && |r| == |s|
    ensures multiset(Rewritten(f, r)) == multiset(f)
  {
    assert f[..|s|] == s;
    assert f == s + f[|s|..];
    assert multiset(r + f[|s|..]) == multiset(r) + multiset(f[|s|..]);
    assert multiset(s + f[|s|..]) == multiset(s) + multiset(f[|s|..]);
  }

  lemma LongerKeeps(k: Classes, s: seq<PodObject>, f: seq<PodObject>, r: seq<PodObject>)
    requires Overlay(s, f) && |f| <= |s| && Numbers(k, s) && Apart(k, s, |f|) && MaySort(k, s, r)
    ensures |r| == |s| && multiset(r[..|f|]) == multiset(f)
  {
    assert s[..|f|] == f;
    ApartKeeps(k, s, |f|, r);
  }

  lemma HarmlessKeeps(s: seq<PodObject>, f: seq<PodObject>, r: seq<PodObject>)
    requires Overlay(s, f) && Numbers(ClassesOf(s), s) && Harmless(s, f) && MaySort(ClassesOf(s), s, r)
    ensures |r| == |s| && multiset(Rewritten(f, r)) == multiset(f) && |Rewritten(f, r)| == |f|
  {
    SameMembers(s, r);
    if |s| <= |f| {
      ShorterKeeps(s, f, r);
    } else {
      LongerKeeps(ClassesOf(s), s, f, r);
    }
  }

  /** However the sort orders the snapshot, the current slice keeps its pods, if and only if it is harmless. */
  lemma HarmlessExact(s: seq<PodObject>, f: seq<PodObject>)
    requires Overlay(s, f) && Numbers(ClassesOf(s), s)
    ensures Harmless(s, f) <==> forall r :: MaySort(ClassesOf(s), s, r) ==> multiset(Rewritten(f, r)) == multiset(f)
  {
    if Harmless(s, f) {
      forall r | MaySort(ClassesOf(s), s, r) ensures multiset(Rewritten(f, r)) == multiset(f) { HarmlessKeeps(s, f, r); }
    } else {
      SortKeepsFront(ClassesOf(s), s, |f|);
      assert s[..|f|] == f;
      var r :| MaySort(ClassesOf(s), s, r) && !(|r| == |s| && multiset(r[..|f|]) == multiset(f));
      SameMembers(s, r);
      assert multiset(Rewritten(f, r)) != multiset(f);
    }
  }

  lemma RewrittenDeployments(s: seq<PodObject>, f: seq<PodObject>, r: seq<PodObject>, index: map<string, Range>)
    requires Overlay(s, f) && Numbers(ClassesOf(s), s) && Harmless(s, f) && MaySort(ClassesOf(s), s, r)
    requires Consistent(s) && ListsExactly(f, index)
    ensures |Rewritten(f, r)| == |f| && forall i :: 0 <= i < |f| ==> Deployment(Rewritten(f, r)[i]) == Deployment(f[i])
  {
    SameMembers(s, r);
    var c := if |s| <= |f| then |s| else |f|;
    DeploymentsStay(s, r, f, index, c);
    forall i | 0 <= i < |f| ensures Deployment(Rewritten(f, r)[i]) == Deployment(f[i]) {
      if i < c { assert Rewritten(f, r)[i] == r[i] && s[i] == f[i]; }
    }
  }

  lemma ConsistentPart(s: seq<PodObject>, f: seq<PodObject>)
    requires Overlay(s, f) && |s| <= |f| && Consistent(f)
    ensures Consistent(s)
  {
    assert s == f[..|s|];
  }

  lemma SameListing(f: seq<PodObject>, g: seq<PodObject>, index: map<string, Range>)
    requires |f| == |g| && (forall i :: 0 <= i < |f| ==> Deployment(g[i]) == Deployment(f[i])) && ListsExactly(f, index)
    ensures ListsExactly(g, index)
  {
  }

  /** An index of the current slice stays exact as well, unless the snapshot's own names disagree. */
  lemma IndexKept(s: seq<PodObject>, f: seq<PodObject>, r: seq<PodObject>, index: map<string, Range>,
                  names: seq<string>, order: seq<string>)
    requires Overlay(s, f) && Numbers(ClassesOf(s), s) && Harmless(s, f) && MaySort(ClassesOf(s), s, r)
    requires IndexOk(f, index, names, order) && (Consistent(s) || |s| <= |f|)
    ensures IndexOk(Rewritten(f, r), index, names, order)
  {
    HarmlessKeeps(s, f, r);
    SameMembers(f, Rewritten(f, r));
    MeagreKept(f, Rewritten(f, r), order);
    if Consistent(f) {
      if |s| <= |f| { ConsistentPart(s, f); }
      RewrittenDeployments(s, f, r, index);
      SameListing(f, Rewritten(f, r), index);
    }
  }

  lemma RewrittenPart(before: seq<PodObject>, after: seq<PodObject>, m: nat, n: nat)
    requires SortedPart(before, after, m) && n <= |before|
    ensures Overlay(before[..m], before[..n]) && after[..n] == Rewritten(before[..n], after[..m])
  {
    if m <= n {
      assert before[..n][m..] == before[m..][..n - m];
      assert after[..n] == after[..m] + after[m..][..n - m];
    } else {
      assert after[..n] == after[..m][..n];
    }
  }

  lemma PartKeeps(before: seq<PodObject>, after: seq<PodObject>, m: nat, n: nat)
    requires SortedPart(before, after, m) && n <= |before| && Harmless(before[..m], before[..n])
    ensures multiset(after[..n]) == multiset(before[..n])
  {
    RewrittenPart(before, after, m, n);
    ClassesFaithful(before[..m]);
    HarmlessKeeps(before[..m], before[..n], after[..m]);
  }

  lemma PartKeepsIndex(before: seq<PodObject>, after: seq<PodObject>, m: nat, n: nat,
                       index: map<string, Range>, names: seq<string>, order: seq<string>)
    requires SortedPart(before, after, m) && n <= |before| && Harmless(before[..m], before[..n])
    requires IndexOk(before[..n], index, names, order) && (Consistent(before[..m]) || m <= n)
    ensures IndexOk(after[..n], index, names, order)
  {
    RewrittenPart(before, after, m, n);
    ClassesFaithful(before[..m]);
    IndexKept(before[..m], before[..n], after[..m], index, names, order);
  }

  /** The first pod's class is the smallest. */
  lemma FirstIsSmallest(s: seq<PodObject>, j: nat)
    requires j < |s| && Consistent(s) && Deployment(s[j]) != Deployment(s[0])
    ensures s[0].name in ClassesOf(s) && s[j].name in ClassesOf(s)
    ensures ClassesOf(s)[s[0].name] < ClassesOf(s)[s[j].name]
  {
    ClassIsNumber(s, 0);
    ClassIsNumber(s, j);
    NumberingDistinct(s);
    if Numbering(s)[Deployment(s[j])] < Numbering(s)[Deployment(s[0])] {
      var y := NumberedBefore(s, 0, Deployment(s[j]));
    }
  }

  /** Two pods of the first deployment push the second pod out of the first two places. */
  lemma PushedOut(s: seq<PodObject>, r: seq<PodObject>)
    requires |s| == 4 && Consistent(s) && (forall i, j :: 0 <= i < j < 4 ==> s[i] != s[j])
    requires (Deployment(s[2]) == Deployment(s[0]) || Deployment(s[3]) == Deployment(s[0]))
    requires Deployment(s[1]) != Deployment(s[0]) && MaySort(ClassesOf(s), s, r)
    ensures |r| == 4 && s[1] !in r[..2]
  {
    var k := ClassesOf(s);
    var x := if Deployment(s[2]) == Deployment(s[0]) then 2 else 3;
    ClassesFaithful(s);
    FirstIsSmallest(s, 1);
    SameMembers(s, r);
    var a := PlaceOf(s, r, 0);
    var b := PlaceOf(s, r, x);
    assert a != b && k[s[x].name] == k[s[0].name];
  }

  lemma PlaceOf(s: seq<PodObject>, r: seq<PodObject>, i: nat) returns (j: nat)
    requires multiset(s) == multiset(r) && i < |s|
    ensures j < |r| && r[j] == s[i]
  {
    assert s[i] in multiset(r);
    j :| 0 <= j < |r| && r[j] == s[i];
  }
}
