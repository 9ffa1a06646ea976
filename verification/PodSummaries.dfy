/** Lists of pod summaries: removing duplicates and deleted pods, and comparing two lists. */
module PodSummaries {

  datatype PodSummary = PodSummary(
    app: string, hostname: string, workspace: string, pod: string, ip: string, ns: string,
    verdict: string, message: string)

  /** Names of the pods in a list. */
  function NamesOf(a: seq<PodSummary>): set<string> {
    set x | x in a :: x.pod
  }

  ghost predicate DistinctNames(a: seq<PodSummary>) {
    forall i, j :: 0 <= i < j < |a| ==> a[i].pod != a[j].pod
  }

  lemma NamesOfAppend(a: seq<PodSummary>, b: seq<PodSummary>)
    ensures NamesOf(a + b) == NamesOf(a) + NamesOf(b)
  {
    forall p | p in NamesOf(a) + NamesOf(b) ensures p in NamesOf(a + b) {
      var x :| (x in a || x in b) && x.pod == p;
      assert x in a + b;
    }
  }

  lemma LastName(a: seq<PodSummary>)
    requires a != [] && DistinctNames(a)
    ensures var init, last := a[..|a| - 1], a[|a| - 1];
            DistinctNames(init) && last.pod !in NamesOf(init) && NamesOf(a) == NamesOf(init) + {last.pod}
  {
    var init, last := a[..|a| - 1], a[|a| - 1];
    assert a == init + [last];
    NamesOfAppend(init, [last]);
    assert NamesOf([last]) == {last.pod};
    forall x | x in init ensures x.pod != last.pod {
      var i :| 0 <= i < |init| && init[i] == x;
      assert a[i] == x;
    }
  }

  lemma {:induction false} NamesCount(a: seq<PodSummary>)
    requires DistinctNames(a)
    ensures |NamesOf(a)| == |a|
  {
    if a != [] {
      LastName(a);
      NamesCount(a[..|a| - 1]);
    }
  }

  lemma SubsetCard(a: set<string>, b: set<string>)
    requires a <= b
    ensures |a| <= |b|
  {
    assert b == a + (b - a);
  }

  // ---------------------------------------------------------------- RemoveDuplicatePod

  /** What the double loop computes: scan left to right, keep a live pod not kept before. */
  function RemoveDuplicate(arr: seq<PodSummary>, live: set<string>): (kept: seq<PodSummary>)
    ensures DistinctNames(kept)
    ensures NamesOf(kept) == NamesOf(arr) * live
    ensures forall x :: x in kept ==> x in arr
  {
    if arr == [] then []
    else
      var last := arr[|arr| - 1];
      var kept := RemoveDuplicate(arr[..|arr| - 1], live);
      assert arr == arr[..|arr| - 1] + [last];
      NamesOfAppend(arr[..|arr| - 1], [last]);
      NamesOfAppend(kept, [last]);
      if last.pod !in live || last.pod in NamesOf(kept) then kept else kept + [last]
  }

  /** Reference definition from the front: take a live pod, then never take its name again. */
  function FirstOccurrences(arr: seq<PodSummary>, live: set<string>): seq<PodSummary> {
    if arr == [] then []
    else if arr[0].pod in live then [arr[0]] + FirstOccurrences(arr[1..], live - {arr[0].pod})
    else FirstOccurrences(arr[1..], live)
  }

  lemma {:induction false} FirstOccurrencesAppend(a: seq<PodSummary>, b: seq<PodSummary>, live: set<string>)
    ensures FirstOccurrences(a + b, live) == FirstOccurrences(a, live) + FirstOccurrences(b, live - NamesOf(a))
  {
    if a == [] {
      assert a + b == b && live - NamesOf(a) == live;
    } else {
      assert (a + b)[1..] == a[1..] + b;
      NamesOfAppend([a[0]], a[1..]);
      assert a == [a[0]] + a[1..];
      if a[0].pod in live {
        FirstOccurrencesAppend(a[1..], b, live - {a[0].pod});
        assert live - {a[0].pod} - NamesOf(a[1..]) == live - NamesOf(a);
      } else {
        FirstOccurrencesAppend(a[1..], b, live);
        assert live - NamesOf(a[1..]) == live - NamesOf(a);
      }
    }
  }

  /** The loop keeps exactly the first occurrence of every live name, in order. */
  lemma {:induction false} RemoveDuplicateKeepsFirst(arr: seq<PodSummary>, live: set<string>)
    ensures RemoveDuplicate(arr, live) == FirstOccurrences(arr, live)
  {
    if arr != [] {
      var init, last := arr[..|arr| - 1], arr[|arr| - 1];
      RemoveDuplicateKeepsFirst(init, live);
      FirstOccurrencesAppend(init, [last], live);
      assert arr == init + [last];
      assert last.pod in NamesOf(RemoveDuplicate(init, live)) <==> last.pod in NamesOf(init) && last.pod in live;
    }
  }

  /** On a list of distinct live pods nothing is removed. */
  lemma {:induction false} RemoveDuplicateIdentity(arr: seq<PodSummary>, live: set<string>)
    requires DistinctNames(arr) && NamesOf(arr) <= live
    ensures RemoveDuplicate(arr, live) == arr
  {
    if arr != [] {
      var init, last := arr[..|arr| - 1], arr[|arr| - 1];
      assert arr == init + [last];
      NamesOfAppend(init, [last]);
      assert last in arr;
      RemoveDuplicateIdentity(init, live);
    }
  }

  lemma RemoveDuplicateIdempotent(arr: seq<PodSummary>, live: set<string>)
    ensures RemoveDuplicate(RemoveDuplicate(arr, live), live) == RemoveDuplicate(arr, live)
  {
    RemoveDuplicateIdentity(RemoveDuplicate(arr, live), live);
  }

  /** RemoveDuplicatePod with its two loops; `podMap` holds the names of the live pods. */
  method RemoveDuplicatePod(arr: seq<PodSummary>, podMap: set<string>) returns (uniqueArr: seq<PodSummary>)
    ensures uniqueArr == RemoveDuplicate(arr, podMap)
  {
    uniqueArr := [];
    for i := 0 to |arr|
      invariant uniqueArr == RemoveDuplicate(arr[..i], podMap)
    {
      var v := arr[i];
      assert arr[..i + 1][..i] == arr[..i];
      if v.pod in podMap {
        var needAppend := true;
        for j := 0 to |uniqueArr|
          invariant needAppend
          invariant forall k :: 0 <= k < j ==> uniqueArr[k].pod != v.pod
        {
          if v.pod == uniqueArr[j].pod {
            needAppend := false;
            break;
          }
        }
        if needAppend {
          uniqueArr := uniqueArr + [v];
        }
      }
    }
    assert arr[..|arr|] == arr;
  }

  // ---------------------------------------------------------------- IsPodSummarySliceEqual

  /** The map built by inserting the list's elements in order: the last one wins. */
  function ByName(a: seq<PodSummary>): (m: map<string, PodSummary>)
    ensures m.Keys == NamesOf(a)
    ensures forall k :: k in m ==> m[k] in a && m[k].pod == k
  {
    if a == [] then map[]
    else
      var init, last := a[..|a| - 1], a[|a| - 1];
      assert a == init + [last];
      NamesOfAppend(init, [last]);
      ByName(init)[last.pod := last]
  }

  function SliceEqual(a: seq<PodSummary>, b: seq<PodSummary>): bool {
    && |a| == |b|
    && (a == [] || forall k :: k in ByName(a) ==> k in ByName(b) && ByName(b)[k] == ByName(a)[k])
  }

  method IsPodSummarySliceEqual(a: seq<PodSummary>, b: seq<PodSummary>) returns (equal: bool)
    ensures equal == SliceEqual(a, b)
  {
    if |a| != |b| {
      return false;
    }
    if |a| == 0 {
      return true;
    }
    var aMap: map<string, PodSummary> := map[];
    for i := 0 to |a|
      invariant aMap == ByName(a[..i])
    {
      assert a[..i + 1][..i] == a[..i];
      aMap := aMap[a[i].pod := a[i]];
    }
    assert a[..|a|] == a;
    var bMap: map<string, PodSummary> := map[];
    for i := 0 to |b|
      invariant bMap == ByName(b[..i])
    {
      assert b[..i + 1][..i] == b[..i];
      bMap := bMap[b[i].pod := b[i]];
    }
    assert b[..|b|] == b;
    // The map is ranged over in no particular order.
    var todo := aMap.Keys;
    while todo != {}
      invariant todo <= aMap.Keys
      invariant forall k :: k in aMap && k !in todo ==> k in bMap && bMap[k] == aMap[k]
      decreases |todo|
    {
      var k :| k in todo;
      if k !in bMap || bMap[k] != aMap[k] {
        return false;
      }
      todo := todo - {k};
    }
    return true;
  }

  lemma {:induction false} ByNameDistinct(a: seq<PodSummary>, i: nat)
    requires DistinctNames(a) && i < |a|
    ensures a[i].pod in ByName(a) && ByName(a)[a[i].pod] == a[i]
  {
    var init := a[..|a| - 1];
    if i < |a| - 1 {
      ByNameDistinct(init, i);
      assert init[i] == a[i];
    }
  }

  lemma {:induction false} MultisetOfDistinct(a: seq<PodSummary>)
    requires DistinctNames(a)
    ensures forall x :: multiset(a)[x] <= 1
  {
    if a != [] {
      var init, last := a[..|a| - 1], a[|a| - 1];
      MultisetOfDistinct(init);
      assert a == init + [last];
      assert last !in init;
      assert last !in multiset(init);
    }
  }

  lemma {:induction false} DistinctFromMultiset(a: seq<PodSummary>, b: seq<PodSummary>)
    requires DistinctNames(a) && multiset(a) == multiset(b)
    ensures DistinctNames(b)
  {
    MultisetOfDistinct(a);
    forall i, j | 0 <= i < j < |b| ensures b[i].pod != b[j].pod {
      assert b[i] in multiset(b) && b[j] in multiset(b);
      assert b[i] in a && b[j] in a;
      if b[i] == b[j] {
        MultisetSplit(b, i, j);
      }
    }
  }

  lemma MultisetSplit(b: seq<PodSummary>, i: nat, j: nat)
    requires i < j < |b| && b[i] == b[j]
    ensures multiset(b)[b[i]] >= 2
  {
    assert b == b[..i] + [b[i]] + b[i + 1..j] + [b[j]] + b[j + 1..];
  }

  lemma SubMultisetEqual(A: multiset<PodSummary>, B: multiset<PodSummary>)
    requires A <= B && |A| == |B|
    ensures A == B
  {
    assert B == A + (B - A);
  }

  /** The comparison is exact whenever its first list has distinct pods: it holds if and only
      if one list is a permutation of the other. */
  lemma SliceEqualExact(a: seq<PodSummary>, b: seq<PodSummary>)
    requires DistinctNames(a)
    ensures SliceEqual(a, b) <==> multiset(a) == multiset(b)
  {
    if SliceEqual(a, b) {
      MultisetOfDistinct(a);
      forall x | x in multiset(a) ensures multiset(a)[x] <= multiset(b)[x] {
        var i :| 0 <= i < |a| && a[i] == x;
        ByNameDistinct(a, i);
        assert x in b;
      }
      SubMultisetEqual(multiset(a), multiset(b));
    } else if multiset(a) == multiset(b) {
      DistinctFromMultiset(a, b);
      assert |a| == |multiset(a)| == |multiset(b)| == |b|;
      forall k | k in ByName(a) ensures k in ByName(b) && ByName(b)[k] == ByName(a)[k] {
        var x := ByName(a)[k];
        assert x in multiset(a);
        var i :| 0 <= i < |b| && b[i] == x;
        ByNameDistinct(b, i);
      }
      assert false;
    }
  }

  /** With a repeated pod in the first list it accepts lists that are not permutations. */
  lemma SliceEqualNeedsDistinct(x: PodSummary, y: PodSummary)
    requires x.pod != y.pod
    ensures SliceEqual([x, x], [x, y]) && multiset([x, x]) != multiset([x, y])
  {
    var a, b := [x, x], [x, y];
    assert a[..1] == [x] && b[..1] == [x] && [x][..0] == [];
    assert ByName([x]) == map[x.pod := x];
    assert ByName(a) == map[x.pod := x];
    assert ByName(b) == map[x.pod := x, y.pod := y];
    assert multiset(a)[x] == 2 && multiset(b)[x] == 1;
  }
}
