/** Deduplication of chains and partition of test cases by target route (scripts/test.ts,
    `uniqueChains` and `groupByTarget`). */
module Grouping {
  import opened Domain

  /** `s.findIndex((y) => key(y) === k)`: the first position whose key is `k`, or -1. */
  function FindIndexBy<T, K(==)>(s: seq<T>, key: T -> K, k: K): (i: int)
    ensures -1 <= i < |s|
    ensures i >= 0 ==> key(s[i]) == k && forall j :: 0 <= j < i ==> key(s[j]) != k
    ensures i == -1 <==> forall j :: 0 <= j < |s| ==> key(s[j]) != k
  {
    if s == [] then -1
    else if key(s[0]) == k then 0
    else
      var i := FindIndexBy(s[1..], key, k);
      if i == -1 then -1 else i + 1
  }

  /** `arr.filter((x, index) => arr.findIndex((y) => key(y) === key(x)) === index)`,
      restricted to the positions from `from` on. */
  function KeepFirstFrom<T, K(==)>(arr: seq<T>, key: T -> K, from: nat): seq<T>
    decreases |arr| - from
  {
    if from >= |arr| then []
    else
      (if FindIndexBy(arr, key, key(arr[from])) == from then [arr[from]] else [])
      + KeepFirstFrom(arr, key, from + 1)
  }

  /** The elements of `arr` whose key no earlier element has. */
  function KeepFirstBy<T, K(==)>(arr: seq<T>, key: T -> K): seq<T> {
    KeepFirstFrom(arr, key, 0)
  }

  /** `uniqueChains`: the chains whose id no earlier chain has. */
  function UniqueChains(chains: seq<Chain>): seq<Chain> {
    KeepFirstBy(chains, ChainId)
  }

  /** The chains a group's session is enabled on: its distinct source chains, then its target
      chain (test.ts:509-510). */
  function SessionChains(sources: seq<Chain>, target: Chain): seq<Chain> {
    UniqueChains(UniqueChains(sources) + [target])
  }

  /** Appending an element never changes where an earlier key is first found. */
  lemma FindIndexBySnoc<T, K>(s: seq<T>, x: T, key: T -> K, k: K)
    ensures FindIndexBy(s + [x], key, k)
         == if FindIndexBy(s, key, k) >= 0 then FindIndexBy(s, key, k)
            else if key(x) == k then |s| else -1
  {
    var t := s + [x];
    var a, b := FindIndexBy(t, key, k), FindIndexBy(s, key, k);
    assert forall j :: 0 <= j < |s| ==> t[j] == s[j];
    if b >= 0 {
      assert key(t[b]) == k;
      assert forall j :: 0 <= j < b ==> key(t[j]) != k;
    } else if key(x) == k {
      assert key(t[|s|]) == k;
    }
  }

  /** From the appended element on, the filter keeps it exactly when its key is new. */
  lemma KeepFirstFromLast<T, K>(arr: seq<T>, x: T, key: T -> K)
    ensures KeepFirstFrom(arr + [x], key, |arr|) == if FindIndexBy(arr, key, key(x)) == -1 then [x] else []
  {
    var t := arr + [x];
    FindIndexBySnoc(arr, x, key, key(x));
    assert t[|arr|] == x;
    assert KeepFirstFrom(t, key, |arr| + 1) == [];
  }

  lemma {:induction false} KeepFirstFromSnoc<T, K>(arr: seq<T>, x: T, key: T -> K, from: nat)
    requires from <= |arr|
    ensures KeepFirstFrom(arr + [x], key, from)
         == KeepFirstFrom(arr, key, from) + (if FindIndexBy(arr, key, key(x)) == -1 then [x] else [])
    decreases |arr| - from
  {
    if from == |arr| {
      KeepFirstFromLast(arr, x, key);
      assert KeepFirstFrom(arr, key, from) == [];
    } else {
      var t := arr + [x];
      var k := key(arr[from]);
      assert t[from] == arr[from];
      FindIndexBySnoc(arr, x, key, k);
      KeepFirstFromSnoc(arr, x, key, from + 1);
    }
  }

  /** Filtering a list grown by one element: the new element is kept exactly when its key is
      new. */
  lemma KeepFirstBySnoc<T, K>(arr: seq<T>, x: T, key: T -> K)
    ensures KeepFirstBy(arr + [x], key)
         == KeepFirstBy(arr, key) + (if FindIndexBy(arr, key, key(x)) == -1 then [x] else [])
  {
    KeepFirstFromSnoc(arr, x, key, 0);
  }

  /** The first-occurrence filter keeps exactly the keys of its input. */
  lemma {:induction false} KeepFirstBySameKeys<T, K>(arr: seq<T>, key: T -> K)
    ensures forall k :: FindIndexBy(KeepFirstBy(arr, key), key, k) == -1 <==> FindIndexBy(arr, key, k) == -1
  {
    if arr == [] {
      assert KeepFirstBy(arr, key) == [];
      return;
    }
    var n := |arr| - 1;
    var pre, x := arr[..n], arr[n];
    assert arr == pre + [x];
    KeepFirstBySameKeys(pre, key);
    KeepFirstBySnoc(pre, x, key);
    var r0 := KeepFirstBy(pre, key);
    forall k ensures FindIndexBy(KeepFirstBy(arr, key), key, k) == -1 <==> FindIndexBy(arr, key, k) == -1 {
      FindIndexBySnoc(pre, x, key, k);
      if FindIndexBy(pre, key, key(x)) == -1 {
        FindIndexBySnoc(r0, x, key, k);
      } else {
        assert KeepFirstBy(arr, key) == r0;
        if key(x) == k {
          assert FindIndexBy(pre, key, k) != -1;
        }
      }
    }
  }

  /** The first-occurrence filter keeps one element per key. */
  lemma {:induction false} KeepFirstByDistinct<T, K>(arr: seq<T>, key: T -> K)
    ensures var r := KeepFirstBy(arr, key);
      forall i, j :: 0 <= i < j < |r| ==> key(r[i]) != key(r[j])
  {
    if arr == [] {
      assert KeepFirstBy(arr, key) == [];
      return;
    }
    var n := |arr| - 1;
    var pre, x := arr[..n], arr[n];
    assert arr == pre + [x];
    KeepFirstByDistinct(pre, key);
    KeepFirstBySnoc(pre, x, key);
    var r0 := KeepFirstBy(pre, key);
    if FindIndexBy(pre, key, key(x)) == -1 {
      KeepFirstBySameKeys(pre, key);
      assert FindIndexBy(r0, key, key(x)) == -1;
      var r := r0 + [x];
      assert forall i :: 0 <= i < |r0| ==> r[i] == r0[i];
    }
  }

  /** Each element the filter keeps is the FIRST element of the input with its key, and the
      kept elements come in the order in which their keys are first seen. */
  lemma {:induction false} KeepFirstByFirsts<T, K>(arr: seq<T>, key: T -> K)
    ensures var r := KeepFirstBy(arr, key);
      && (forall i :: 0 <= i < |r| ==>
            0 <= FindIndexBy(arr, key, key(r[i])) && r[i] == arr[FindIndexBy(arr, key, key(r[i]))])
      && (forall i, j :: 0 <= i < j < |r| ==>
            FindIndexBy(arr, key, key(r[i])) < FindIndexBy(arr, key, key(r[j])))
  {
    if arr == [] {
      assert KeepFirstBy(arr, key) == [];
      return;
    }
    var n := |arr| - 1;
    var pre, x := arr[..n], arr[n];
    assert arr == pre + [x];
    KeepFirstByFirsts(pre, key);
    KeepFirstBySnoc(pre, x, key);
    var r0 := KeepFirstBy(pre, key);
    var r := KeepFirstBy(arr, key);
    forall i | 0 <= i < |r0|
      ensures r[i] == r0[i]
      ensures FindIndexBy(arr, key, key(r0[i])) == FindIndexBy(pre, key, key(r0[i]))
      ensures arr[FindIndexBy(pre, key, key(r0[i]))] == pre[FindIndexBy(pre, key, key(r0[i]))]
    {
      FindIndexBySnoc(pre, x, key, key(r0[i]));
    }
    if FindIndexBy(pre, key, key(x)) == -1 {
      FindIndexBySnoc(pre, x, key, key(x));
      assert r[|r0|] == x;
      assert FindIndexBy(arr, key, key(x)) == n;
    }
  }

  /** On a list whose keys are already distinct the filter keeps everything. */
  lemma {:induction false} KeepFirstByOfDistinct<T, K>(arr: seq<T>, key: T -> K)
    requires forall i, j :: 0 <= i < j < |arr| ==> key(arr[i]) != key(arr[j])
    ensures KeepFirstBy(arr, key) == arr
  {
    if arr != [] {
      var n := |arr| - 1;
      assert arr == arr[..n] + [arr[n]];
      KeepFirstByOfDistinct(arr[..n], key);
      KeepFirstBySnoc(arr[..n], arr[n], key);
      assert forall j :: 0 <= j < n ==> key(arr[..n][j]) != key(arr[n]);
    }
  }

  /** `uniqueChains` keeps at most one chain per id. */
  lemma UniqueChainsDistinct(chains: seq<Chain>)
    ensures var r := UniqueChains(chains);
      forall i, j :: 0 <= i < j < |r| ==> r[i].id != r[j].id
  {
    KeepFirstByDistinct(chains, ChainId);
  }

  /** `uniqueChains` keeps at least one chain for every id present. */
  lemma UniqueChainsCovers(chains: seq<Chain>)
    ensures var r := UniqueChains(chains);
      forall c :: c in chains ==> exists i :: 0 <= i < |r| && r[i].id == c.id
  {
    var r := UniqueChains(chains);
    KeepFirstBySameKeys(chains, ChainId);
    forall c | c in chains ensures exists i :: 0 <= i < |r| && r[i].id == c.id {
      var p :| 0 <= p < |chains| && chains[p] == c;
      assert FindIndexBy(chains, ChainId, c.id) != -1 by { assert ChainId(chains[p]) == c.id; }
      var i := FindIndexBy(r, ChainId, c.id);
      assert r[i].id == c.id;
    }
  }

  /** The chain `uniqueChains` keeps for an id is the first chain with that id, and the kept
      chains come in the order of their first appearance. */
  lemma UniqueChainsKeepsFirst(chains: seq<Chain>)
    ensures var r := UniqueChains(chains);
      && (forall i :: 0 <= i < |r| ==>
            0 <= FindIndexBy(chains, ChainId, r[i].id) && r[i] == chains[FindIndexBy(chains, ChainId, r[i].id)])
      && (forall i, j :: 0 <= i < j < |r| ==>
            FindIndexBy(chains, ChainId, r[i].id) < FindIndexBy(chains, ChainId, r[j].id))
  {
    KeepFirstByFirsts(chains, ChainId);
  }


  /** The session chains of a group are its distinct source chains followed by the target
      chain, which is added only when no source chain has its id. */
  lemma SessionChainsShape(sources: seq<Chain>, target: Chain)
    ensures SessionChains(sources, target)
         == UniqueChains(sources) + (if FindIndexBy(sources, ChainId, target.id) == -1 then [target] else [])
  {
    var u := UniqueChains(sources);
    KeepFirstBySameKeys(sources, ChainId);
    KeepFirstByDistinct(sources, ChainId);
    KeepFirstByOfDistinct(u, ChainId);
    KeepFirstBySnoc(u, target, ChainId);
  }

  /** The cases of `cases` whose target route is `k`, in input order. */
  function CasesWithKey(cases: seq<TestCase>, k: RouteKey): seq<TestCase> {
    if cases == [] then []
    else
      var n := |cases| - 1;
      CasesWithKey(cases[..n], k) + (if CaseKey(cases[n]) == k then [cases[n]] else [])
  }

  /** The groups' cases, group after group. */
  function AllCases(groups: seq<TargetGroup>): seq<TestCase> {
    if groups == [] then []
    else
      var n := |groups| - 1;
      AllCases(groups[..n]) + groups[n].cases
  }

  /** The groups are led, in order, by `leaders`: each is named after its leader's target
      chain and token. */
  ghost predicate LedBy(groups: seq<TargetGroup>, leaders: seq<TestCase>) {
    && |groups| == |leaders|
    && forall g :: 0 <= g < |groups| ==>
         groups[g].targetChain == leaders[g].targetChain && groups[g].targetToken == leaders[g].targetToken
  }

  /** Each group holds all the cases of its route, in input order. */
  ghost predicate HoldsRoutes(groups: seq<TargetGroup>, cases: seq<TestCase>) {
    forall g :: 0 <= g < |groups| ==> groups[g].cases == CasesWithKey(cases, GroupKey(groups[g]))
  }

  /** `groups` is what grouping `cases` by target route yields: one group per distinct route,
      led (in order) by the first case of that route and named after that case's target chain
      and token, holding all cases of that route in input order; together the groups hold
      every case exactly once. */
  ghost predicate IsGroupingOf(groups: seq<TargetGroup>, cases: seq<TestCase>) {
    && LedBy(groups, KeepFirstBy(cases, CaseKey))
    && HoldsRoutes(groups, cases)
    && multiset(AllCases(groups)) == multiset(cases)
  }

  /** `groupByTarget`: for each case, find the group of its route (`groups.find`), open a new
      group at the end if there is none, and append the case to the group. */
  method GroupByTarget(cases: seq<TestCase>) returns (groups: seq<TargetGroup>)
    ensures IsGroupingOf(groups, cases)
  {
    groups := [];
    assert cases[..0] == [];
    assert IsGroupingOf(groups, cases[..0]) by {
      assert KeepFirstBy([], CaseKey) == [];
    }
    for i := 0 to |cases|
      invariant IsGroupingOf(groups, cases[..i])
    {
      var tc := cases[i];
      var k := FindIndexBy(groups, GroupKey, CaseKey(tc));
      assert cases[..i + 1] == cases[..i] + [tc];
      if k == -1 {
        // a new group, opened at the end, whose first case is `tc`
        ghost var before := groups;
        groups := groups + [TargetGroup(tc.targetChain, tc.targetToken, [tc])];
        GroupStepNew(before, cases[..i], tc, groups, cases[..i + 1]);
      } else {
        ghost var before := groups;
        groups := groups[k := groups[k].(cases := groups[k].cases + [tc])];
        GroupStepExisting(before, cases[..i], tc, k, groups, cases[..i + 1]);
      }
    }
    assert cases[..|cases|] == cases;
  }

  /** Looking a route up among the groups is looking it up among their leaders. */
  lemma {:induction false} FindGroupIsFindLeader(groups: seq<TargetGroup>, leaders: seq<TestCase>, k: RouteKey)
    requires LedBy(groups, leaders)
    ensures FindIndexBy(groups, GroupKey, k) == FindIndexBy(leaders, CaseKey, k)
  {
    if groups != [] {
      assert GroupKey(groups[0]) == CaseKey(leaders[0]);
      FindGroupIsFindLeader(groups[1..], leaders[1..], k);
    }
  }

  /** Groups led by the first-occurrence filter have pairwise distinct routes. */
  lemma GroupKeysDistinct(groups: seq<TargetGroup>, cases: seq<TestCase>)
    requires LedBy(groups, KeepFirstBy(cases, CaseKey))
    ensures forall a, b :: 0 <= a < |groups| && 0 <= b < |groups| && a != b ==>
      GroupKey(groups[a]) != GroupKey(groups[b])
  {
    var leaders := KeepFirstBy(cases, CaseKey);
    KeepFirstByDistinct(cases, CaseKey);
    forall a, b | 0 <= a < |groups| && 0 <= b < |groups| && a != b
      ensures GroupKey(groups[a]) != GroupKey(groups[b])
    {
      assert GroupKey(groups[a]) == CaseKey(leaders[a]);
      assert GroupKey(groups[b]) == CaseKey(leaders[b]);
      if a < b {
        assert CaseKey(leaders[a]) != CaseKey(leaders[b]);
      } else {
        assert CaseKey(leaders[b]) != CaseKey(leaders[a]);
      }
    }
  }

  lemma {:induction false} CasesWithKeyAbsent(cases: seq<TestCase>, k: RouteKey)
    requires FindIndexBy(cases, CaseKey, k) == -1
    ensures CasesWithKey(cases, k) == []
  {
    if cases != [] {
      var n := |cases| - 1;
      assert forall j :: 0 <= j < n ==> cases[..n][j] == cases[j];
      CasesWithKeyAbsent(cases[..n], k);
    }
  }

  lemma {:induction false} AllCasesAppendAt(groups: seq<TargetGroup>, k: nat, tc: TestCase)
    requires k < |groups|
    ensures multiset(AllCases(groups[k := groups[k].(cases := groups[k].cases + [tc])]))
         == multiset(AllCases(groups)) + multiset{tc}
  {
    var n := |groups| - 1;
    var updated := groups[k := groups[k].(cases := groups[k].cases + [tc])];
    assert AllCases(groups) == AllCases(groups[..n]) + groups[n].cases;
    assert AllCases(updated) == AllCases(updated[..n]) + updated[n].cases;
    if k == n {
      assert updated[..n] == groups[..n];
    } else {
      assert updated[..n] == groups[..n][k := groups[k].(cases := groups[k].cases + [tc])];
      AllCasesAppendAt(groups[..n], k, tc);
    }
  }

  /** Filing one more case: each route's list grows by the case exactly when it is the
      case's route. */
  lemma CasesWithKeySnoc(pre: seq<TestCase>, tc: TestCase, k: RouteKey)
    ensures CasesWithKey(pre + [tc], k) == CasesWithKey(pre, k) + (if CaseKey(tc) == k then [tc] else [])
  {
    assert (pre + [tc])[..|pre|] == pre;
  }

  /** Filing a case whose route already has group `k` keeps each group holding its route. */
  lemma HoldsRoutesExisting(groups: seq<TargetGroup>, pre: seq<TestCase>, tc: TestCase, k: nat)
    requires HoldsRoutes(groups, pre)
    requires forall a, b :: 0 <= a < |groups| && 0 <= b < |groups| && a != b ==>
      GroupKey(groups[a]) != GroupKey(groups[b])
    requires k < |groups| && GroupKey(groups[k]) == CaseKey(tc)
    ensures HoldsRoutes(groups[k := groups[k].(cases := groups[k].cases + [tc])], pre + [tc])
  {
    var groups' := groups[k := groups[k].(cases := groups[k].cases + [tc])];
    forall g | 0 <= g < |groups'| ensures groups'[g].cases == CasesWithKey(pre + [tc], GroupKey(groups'[g])) {
      CasesWithKeySnoc(pre, tc, GroupKey(groups[g]));
    }
  }

  /** Filing a case whose route already has group `k` keeps the groups led by the first case
      of each route. */
  lemma LedByExisting(groups: seq<TargetGroup>, pre: seq<TestCase>, tc: TestCase, k: nat)
    requires LedBy(groups, KeepFirstBy(pre, CaseKey))
    requires k < |groups| && GroupKey(groups[k]) == CaseKey(tc)
    ensures LedBy(groups[k := groups[k].(cases := groups[k].cases + [tc])], KeepFirstBy(pre + [tc], CaseKey))
  {
    var leaders := KeepFirstBy(pre, CaseKey);
    KeepFirstBySnoc(pre, tc, CaseKey);
    KeepFirstBySameKeys(pre, CaseKey);
    assert CaseKey(leaders[k]) == CaseKey(tc);
    assert FindIndexBy(leaders, CaseKey, CaseKey(tc)) != -1;
  }

  /** One iteration of `groupByTarget` for a case whose route already has group `k`. */
  lemma GroupStepExisting(groups: seq<TargetGroup>, pre: seq<TestCase>, tc: TestCase, k: nat,
                          groups': seq<TargetGroup>, post: seq<TestCase>)
    requires IsGroupingOf(groups, pre)
    requires k < |groups| && GroupKey(groups[k]) == CaseKey(tc)
    requires groups' == groups[k := groups[k].(cases := groups[k].cases + [tc])]
    requires post == pre + [tc]
    ensures IsGroupingOf(groups', post)
  {
    LedByExisting(groups, pre, tc, k);
    GroupKeysDistinct(groups, pre);
    HoldsRoutesExisting(groups, pre, tc, k);
    AllCasesAppendAt(groups, k, tc);
  }

  /** A case whose route has no group yet has no earlier case of its route. */
  lemma NewRouteUnseen(groups: seq<TargetGroup>, pre: seq<TestCase>, tc: TestCase)
    requires LedBy(groups, KeepFirstBy(pre, CaseKey))
    requires FindIndexBy(groups, GroupKey, CaseKey(tc)) == -1
    ensures FindIndexBy(pre, CaseKey, CaseKey(tc)) == -1
  {
    KeepFirstBySameKeys(pre, CaseKey);
    FindGroupIsFindLeader(groups, KeepFirstBy(pre, CaseKey), CaseKey(tc));
  }

  /** Opening a group for a new route keeps every group holding its route. */
  lemma HoldsRoutesNew(groups: seq<TargetGroup>, pre: seq<TestCase>, tc: TestCase)
    requires HoldsRoutes(groups, pre)
    requires FindIndexBy(groups, GroupKey, CaseKey(tc)) == -1
    requires FindIndexBy(pre, CaseKey, CaseKey(tc)) == -1
    ensures HoldsRoutes(groups + [TargetGroup(tc.targetChain, tc.targetToken, [tc])], pre + [tc])
  {
    var key := CaseKey(tc);
    var groups' := groups + [TargetGroup(tc.targetChain, tc.targetToken, [tc])];
    CasesWithKeyAbsent(pre, key);
    forall g | 0 <= g < |groups'| ensures groups'[g].cases == CasesWithKey(pre + [tc], GroupKey(groups'[g])) {
      if g < |groups| {
        assert GroupKey(groups[g]) != key;
        CasesWithKeySnoc(pre, tc, GroupKey(groups[g]));
      } else {
        CasesWithKeySnoc(pre, tc, key);
      }
    }
  }

  /** Opening a group for a new route makes its case the new group's leader. */
  lemma LedByNew(groups: seq<TargetGroup>, pre: seq<TestCase>, tc: TestCase)
    requires LedBy(groups, KeepFirstBy(pre, CaseKey))
    requires FindIndexBy(pre, CaseKey, CaseKey(tc)) == -1
    ensures LedBy(groups + [TargetGroup(tc.targetChain, tc.targetToken, [tc])], KeepFirstBy(pre + [tc], CaseKey))
  {
    var leaders := KeepFirstBy(pre, CaseKey);
    KeepFirstBySnoc(pre, tc, CaseKey);
    assert KeepFirstBy(pre + [tc], CaseKey) == leaders + [tc];
  }

  /** One iteration of `groupByTarget` for a case whose route has no group yet. */
  lemma GroupStepNew(groups: seq<TargetGroup>, pre: seq<TestCase>, tc: TestCase,
                     groups': seq<TargetGroup>, post: seq<TestCase>)
    requires IsGroupingOf(groups, pre)
    requires FindIndexBy(groups, GroupKey, CaseKey(tc)) == -1
    requires groups' == groups + [TargetGroup(tc.targetChain, tc.targetToken, [tc])]
    requires post == pre + [tc]
    ensures IsGroupingOf(groups', post)
  {
    NewRouteUnseen(groups, pre, tc);
    LedByNew(groups, pre, tc);
    HoldsRoutesNew(groups, pre, tc);
    assert groups'[..|groups|] == groups;
    assert AllCases(groups') == AllCases(groups) + [tc];
  }

  /** Every case lies in the group of its own route. */
  lemma GroupOfEachCase(groups: seq<TargetGroup>, cases: seq<TestCase>)
    requires IsGroupingOf(groups, cases)
    ensures forall i :: 0 <= i < |cases| ==>
      var g := FindIndexBy(groups, GroupKey, CaseKey(cases[i]));
      0 <= g && cases[i] in groups[g].cases
  {
    var leaders := KeepFirstBy(cases, CaseKey);
    KeepFirstBySameKeys(cases, CaseKey);
    forall i | 0 <= i < |cases|
      ensures var g := FindIndexBy(groups, GroupKey, CaseKey(cases[i])); 0 <= g && cases[i] in groups[g].cases
    {
      var key := CaseKey(cases[i]);
      FindGroupIsFindLeader(groups, leaders, key);
      assert FindIndexBy(cases, CaseKey, key) != -1;
      CasesWithKeyMembers(cases, key);
    }
  }

  /** A grouped case belongs to the input and to its group's route. */
  lemma GroupCasesBelong(groups: seq<TargetGroup>, cases: seq<TestCase>)
    requires HoldsRoutes(groups, cases)
    ensures forall g, tc :: 0 <= g < |groups| && tc in groups[g].cases ==>
      tc in cases && CaseKey(tc) == GroupKey(groups[g])
  {
    forall g, tc | 0 <= g < |groups| && tc in groups[g].cases
      ensures tc in cases && CaseKey(tc) == GroupKey(groups[g])
    {
      CasesWithKeyMembers(cases, GroupKey(groups[g]));
    }
  }

  /** The groups appear in the order their routes are first seen in the input. */
  lemma GroupsInFirstSeenOrder(groups: seq<TargetGroup>, cases: seq<TestCase>)
    requires LedBy(groups, KeepFirstBy(cases, CaseKey))
    ensures forall a, b :: 0 <= a < b < |groups| ==>
      FindIndexBy(cases, CaseKey, GroupKey(groups[a])) < FindIndexBy(cases, CaseKey, GroupKey(groups[b]))
  {
    var leaders := KeepFirstBy(cases, CaseKey);
    KeepFirstByFirsts(cases, CaseKey);
    assert forall g :: 0 <= g < |groups| ==> GroupKey(groups[g]) == CaseKey(leaders[g]);
  }

  /** The cases filed under route `k` are exactly the input cases of that route. */
  lemma {:induction false} CasesWithKeyMembers(cases: seq<TestCase>, k: RouteKey)
    ensures forall tc :: tc in CasesWithKey(cases, k) <==> tc in cases && CaseKey(tc) == k
  {
    if cases != [] {
      var n := |cases| - 1;
      assert cases == cases[..n] + [cases[n]];
      CasesWithKeyMembers(cases[..n], k);
    }
  }
}
