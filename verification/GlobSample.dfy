/**
Round-robin sampling of search results across top-level entries (fssearch/glob.go).
 */
module GlobSample {
  import opened SessionLog
  import opened Grouping

  type Groups = map<string, seq<string>>

  /** The groups of the keys, one after the other. */
  function Gather(keys: seq<string>, groups: Groups): seq<string>
    requires forall i :: 0 <= i < |keys| ==> keys[i] in groups
  {
    if keys == [] then [] else Gather(keys[..|keys| - 1], groups) + groups[keys[|keys| - 1]]
  }

  function Share(taken: Groups, k: string): nat {
    if k in taken then |taken[k]| else 0
  }

  lemma {:induction false} GatherSame(keys: seq<string>, a: Groups, b: Groups)
    requires forall i :: 0 <= i < |keys| ==> keys[i] in a && keys[i] in b && a[keys[i]] == b[keys[i]]
    ensures Gather(keys, a) == Gather(keys, b)
  {
    if keys != [] { GatherSame(keys[..|keys| - 1], a, b); }
  }

  /** Giving one more item to one group makes the gathered list one longer. */
  lemma {:induction false} GatherOneMore(keys: seq<string>, taken: Groups, k: string, item: string)
    requires Distinct(keys) && k in keys && forall i :: 0 <= i < |keys| ==> keys[i] in taken
    ensures |Gather(keys, taken[k := taken[k] + [item]])| == |Gather(keys, taken)| + 1
  {
    var last, init := keys[|keys| - 1], keys[..|keys| - 1];
    var more := taken[k := taken[k] + [item]];
    if last == k {
      GatherSame(init, taken, more);
    } else {
      GatherOneMore(init, taken, k, item);
    }
  }

  lemma {:induction false} GatherNewItem(keys: seq<string>, items: seq<string>, before: Groups, after: Groups, k: string)
    requires Distinct(keys) && k in keys && (forall i :: 0 <= i < |keys| ==> keys[i] in before && keys[i] in after)
    requires forall i :: 0 <= i < |keys| ==> after[keys[i]] == before[keys[i]] + if keys[i] == k then items else []
    ensures |Gather(keys, after)| == |Gather(keys, before)| + |items|
  {
    var last, init := keys[|keys| - 1], keys[..|keys| - 1];
    if last == k {
      GatherSame(init, before, after);
    } else {
      GatherNewItem(init, items, before, after, k);
    }
  }

  function GroupMap(keys: seq<string>, paths: seq<string>, key: string -> string): Groups {
    map k | k in keys :: Members(paths, key, k)
  }

  lemma {:induction false} GroupsHoldEveryPath(paths: seq<string>, key: string -> string)
    ensures |Gather(Keys(paths, key), GroupMap(Keys(paths, key), paths, key))| == |paths|
  {
    if paths != [] {
      var init, last := paths[..|paths| - 1], paths[|paths| - 1];
      var keys, before := Keys(paths, key), Keys(init, key);
      GroupsHoldEveryPath(init, key);
      KeysAreDistinct(paths, key);
      KeysAreDistinct(init, key);
      var all := GroupMap(keys, init, key);
      GatherSame(before, GroupMap(before, init, key), all);
      if key(last) !in before {
        NoMembers(init, key, key(last));
        assert keys[..|before|] == before;
      }
      assert last in paths;
      GatherNewItem(keys, [last], all, GroupMap(keys, paths, key), key(last));
    }
  }

  lemma NoMembers(items: seq<string>, key: string -> string, k: string)
    requires k !in Keys(items, key)
    ensures Members(items, key, k) == []
  {
    KeysAreDistinct(items, key);
    FilterKeeps(items, item => key(item) == k);
    SomeMember(Members(items, key, k));
  }

  lemma SomeMember(s: seq<string>)
    ensures s != [] ==> exists item :: item in s
  {
    if s != [] { assert s[0] in s; }
  }

  lemma EveryKeyHasMembers(items: seq<string>, key: string -> string, k: string)
    requires k in Keys(items, key)
    ensures Members(items, key, k) != []
  {
    KeyOfSomeItem(items, key, k);
    FilterKeeps(items, item => key(item) == k);
  }

  lemma {:induction false} KeyOfSomeItem(items: seq<string>, key: string -> string, k: string)
    requires k in Keys(items, key)
    ensures exists item :: item in items && key(item) == k
  {
    var init, last := items[..|items| - 1], items[|items| - 1];
    assert items == init + [last];
    if k in Keys(init, key) {
      KeyOfSomeItem(init, key, k);
      var item :| item in init && key(item) == k;
      assert item in items;
    } else {
      assert last in items && key(last) == k;
    }
  }

  // ----- Rounds -----

  /** The keys whose group has more than r items. */
  function Remaining(keys: seq<string>, groups: Groups, r: nat): seq<string> {
    Filter(keys, k => k in groups && |groups[k]| > r)
  }

  /** In round r the visited keys hold r + 1 items, the others r, or all they have. */
  ghost predicate Fair(order: seq<string>, groups: Groups, taken: Groups, r: nat, visited: seq<string>) {
    && (forall k :: k in order ==> k in groups && Share(taken, k) == if k in visited then r + 1 else Min(|groups[k]|, r))
    && (forall k :: k in taken ==> k in order && taken[k] <= groups[k])
  }

  /** The keys that hold something, in group order. */
  ghost predicate Shown(order: seq<string>, taken: Groups, shown: seq<string>) {
    shown <= order && forall k :: k in taken <==> k in shown
  }

  lemma NextRound(order: seq<string>, groups: Groups, taken: Groups, r: nat)
    requires Fair(order, groups, taken, r, Remaining(order, groups, r))
    ensures Fair(order, groups, taken, r + 1, [])
  {
    FilterKeeps(order, k => k in groups && |groups[k]| > r);
  }

  /** One key of the round takes its next item. */
  lemma TakeKeepsFair(order: seq<string>, groups: Groups, taken: Groups, r: nat, active: seq<string>, p: nat)
    requires p < |active| && Fair(order, groups, taken, r, active[..p]) && Distinct(active) && active[p] in order && |groups[active[p]]| > r
    ensures var k := active[p];
            Share(taken, k) == r && Fair(order, groups, Given(taken, k, groups[k][r]), r, active[..p + 1])
  {
    var k := active[p];
    assert k !in active[..p];
    assert active[..p + 1] == active[..p] + [k];
    var had := if k in taken then taken[k] else [];
    assert had == groups[k][..r];
    assert had + [groups[k][r]] == groups[k][..r + 1];
  }

  function Given(taken: Groups, k: string, item: string): Groups {
    taken[k := (if k in taken then taken[k] else []) + [item]]
  }

  ghost predicate AllIn(keys: seq<string>, groups: Groups) {
    forall i :: 0 <= i < |keys| ==> keys[i] in groups
  }

  lemma NewKey(order: seq<string>, p: nat)
    requires p < |order| && Distinct(order)
    ensures order[p] !in order[..p] && order[..p + 1] == order[..p] + [order[p]]
  {
  }

  lemma GatherNewKey(shown: seq<string>, taken: Groups, k: string, item: string)
    requires AllIn(shown, taken) && k !in taken
    ensures AllIn(shown + [k], Given(taken, k, item)) && |Gather(shown + [k], Given(taken, k, item))| == |Gather(shown, taken)| + 1
  {
    var more := Given(taken, k, item);
    assert (shown + [k])[..|shown|] == shown;
    GatherSame(shown, taken, more);
    assert more[k] == [item];
  }

  /** In the first round the keys are shown in group order. */
  lemma FirstTake(order: seq<string>, taken: Groups, p: nat, item: string)
    requires p < |order| && Shown(order, taken, order[..p]) && AllIn(order[..p], taken) && Distinct(order)
    ensures var k := order[p];
            var more := Given(taken, k, item);
            && k !in taken && Shown(order, more, order[..p + 1]) && AllIn(order[..p + 1], more)
            && |Gather(order[..p + 1], more)| == |Gather(order[..p], taken)| + 1
  {
    hide Gather, AllIn, Distinct;
    NewKey(order, p);
    GatherNewKey(order[..p], taken, order[p], item);
  }

  /** Later rounds show no new key. */
  lemma LaterTake(order: seq<string>, taken: Groups, k: string, item: string)
    requires Shown(order, taken, order) && AllIn(order, taken) && Distinct(order) && k in order
    ensures var more := Given(taken, k, item);
            k in taken && Shown(order, more, order) && AllIn(order, more) && |Gather(order, more)| == |Gather(order, taken)| + 1
  {
    GatherOneMore(order, taken, k, item);
  }

  /** Where round r stands after p active keys: who holds what, who is shown, and how much. */
  ghost predicate Mid(order: seq<string>, groups: Groups, active: seq<string>, r: nat, p: nat, taken: Groups, shown: seq<string>, count: nat) {
    && p <= |active| && Distinct(order) && active == Remaining(order, groups, r) && (r == 0 ==> active == order)
    && Fair(order, groups, taken, r, active[..p])
    && shown == (if r == 0 then order[..p] else order) && Shown(order, taken, shown) && AllIn(shown, taken)
    && count == |Gather(shown, taken)|
  }

  lemma TakeKeepsMid(order: seq<string>, groups: Groups, active: seq<string>, r: nat, p: nat, taken: Groups, shown: seq<string>, count: nat)
    requires Mid(order, groups, active, r, p, taken, shown, count) && p < |active|
    ensures active[p] in groups && |groups[active[p]]| > r
    ensures var k := active[p];
            Mid(order, groups, active, r, p + 1, Given(taken, k, groups[k][r]), if k in taken then shown else shown + [k], count + 1)
  {
    hide Shown, Fair, Gather, Given, AllIn;
    FilterKeeps(order, k => k in groups && |groups[k]| > r);
    var k := active[p];
    assert k in active;
    TakeKeepsFair(order, groups, taken, r, active, p);
    if r == 0 {
      FirstTake(order, taken, p, groups[k][r]);
      assert order[..p + 1] == order[..p] + [k];
    } else {
      LaterTake(order, taken, k, groups[k][r]);
    }
  }

  /** One round: every active key takes one item while there is room. */
  method TakeRound(order: seq<string>, groups: Groups, active: seq<string>, r: nat, maxItems: int,
                   taken0: Groups, shown0: seq<string>, count0: nat)
    returns (taken: Groups, shown: seq<string>, count: nat, next: seq<string>, ghost p: nat)
    requires Mid(order, groups, active, r, 0, taken0, shown0, count0) && count0 < maxItems
    ensures Mid(order, groups, active, r, p, taken, shown, count) && count == count0 + p <= maxItems
    ensures count < maxItems ==> p == |active|
    ensures p == |active| ==> next == Remaining(order, groups, r + 1)
  {
    hide Mid;
    taken, shown, count, next := taken0, shown0, count0, [];
    var i := 0;
    while i < |active| && count < maxItems
      invariant 0 <= i <= |active| && count == count0 + i <= maxItems
      invariant Mid(order, groups, active, r, i, taken, shown, count)
      invariant next == Filter(active[..i], k => k in groups && |groups[k]| > r + 1)
    {
      assert active[..i + 1][..i] == active[..i];
      TakeKeepsMid(order, groups, active, r, i, taken, shown, count);
      var k := active[i];
      if k !in taken { shown := shown + [k]; }
      taken := Given(taken, k, groups[k][r]);
      if |groups[k]| > r + 1 { next := next + [k]; }
      count, i := count + 1, i + 1;
    }
    p := i;
    MidActive(order, groups, active, r, p, taken, shown, count);
    if i == |active| {
      assert active[..i] == active;
      FilterTwice(order, groups, r);
    }
  }

  lemma MidActive(order: seq<string>, groups: Groups, active: seq<string>, r: nat, p: nat, taken: Groups, shown: seq<string>, count: nat)
    requires Mid(order, groups, active, r, p, taken, shown, count)
    ensures active == Remaining(order, groups, r)
  {
  }

  /** A finished round is the start of the next. */
  lemma RoundEnds(order: seq<string>, groups: Groups, active: seq<string>, r: nat, taken: Groups, shown: seq<string>, count: nat)
    requires Mid(order, groups, active, r, |active|, taken, shown, count)
    ensures Mid(order, groups, Remaining(order, groups, r + 1), r + 1, 0, taken, shown, count)
  {
    hide Gather, Shown, AllIn;
    assert active[..|active|] == active;
    assert r == 0 ==> order[..|order|] == order;
    NextRound(order, groups, taken, r);
    assert Remaining(order, groups, r + 1)[..0] == [];
  }

  lemma {:induction false} FilterTwice(keys: seq<string>, groups: Groups, r: nat)
    ensures Filter(Remaining(keys, groups, r), k => k in groups && |groups[k]| > r + 1) == Remaining(keys, groups, r + 1)
  {
    if keys != [] {
      var init, last := keys[..|keys| - 1], keys[|keys| - 1];
      FilterTwice(init, groups, r);
      var kept := Remaining(init, groups, r);
      assert (kept + [last])[..|kept|] == kept && kept + [] == kept;
    }
  }

  // ----- The sample -----

  datatype Sample = Sample(items: seq<string>, shown: nat, total: nat)

  /** The shares of a sample: prefixes of the groups, in group order, as even as the groups allow. */
  ghost predicate Even(paths: seq<string>, key: string -> string, maxItems: int, taken: Groups, sample: Sample) {
    var order := Keys(paths, key);
    && sample.total == |order| && sample.shown <= |order|
    && (forall i :: 0 <= i < |order| ==> (order[i] in taken <==> i < sample.shown))
    && (forall k :: k in taken ==> k in order && taken[k] != [] && taken[k] <= Members(paths, key, k))
    && AllIn(order[..sample.shown], taken) && sample.items == Gather(order[..sample.shown], taken)
    && |sample.items| == Min(if maxItems < 0 then 0 else maxItems, |paths|)
    // Two groups differ by more than one only when the smaller one is exhausted, and an earlier
    // group never holds less than a later one unless it is exhausted.
    && (forall j, k :: j in order && k in order && Share(taken, j) + 1 < Share(taken, k) ==> Share(taken, j) == |Members(paths, key, j)|)
    && (forall i, j :: 0 <= i < j < |order| && Share(taken, order[i]) < Share(taken, order[j]) ==>
          Share(taken, order[i]) == |Members(paths, key, order[i])|)
  }

  lemma {:induction false} FilterAll(keys: seq<string>, keep: string -> bool)
    requires forall i :: 0 <= i < |keys| ==> keep(keys[i])
    ensures Filter(keys, keep) == keys
  {
    if keys != [] { FilterAll(keys[..|keys| - 1], keep); }
  }

  /** A filtered list keeps the order: whoever comes first is also in every prefix first. */
  lemma {:induction false} FilterKeepsOrder(order: seq<string>, keep: string -> bool, p: nat, i: nat, j: nat)
    requires Distinct(order) && p <= |Filter(order, keep)| && i < j < |order| && order[j] in Filter(order, keep)[..p] && keep(order[i])
    ensures order[i] in Filter(order, keep)[..p]
  {
    var init, last := order[..|order| - 1], order[|order| - 1];
    FilterKeeps(init, keep);
    var before := Filter(init, keep);
    if p <= |before| {
      assert Filter(order, keep)[..p] == before[..p];
      assert order[j] in before;
      FilterKeepsOrder(init, keep, p, i, j);
    } else {
      assert Filter(order, keep)[..p] == before + [last];
      assert order[i] == init[i];
    }
  }

  lemma {:induction false} GatherShorter(keys: seq<string>, taken: Groups, groups: Groups)
    requires AllIn(keys, taken) && AllIn(keys, groups) && forall i :: 0 <= i < |keys| ==> taken[keys[i]] <= groups[keys[i]]
    ensures |Gather(keys, taken)| <= |Gather(keys, groups)|
  {
    if keys != [] { GatherShorter(keys[..|keys| - 1], taken, groups); }
  }

  lemma {:induction false} GatherPrefix(keys: seq<string>, n: nat, groups: Groups)
    requires AllIn(keys, groups) && n <= |keys|
    ensures AllIn(keys[..n], groups) && |Gather(keys[..n], groups)| <= |Gather(keys, groups)|
  {
    if n < |keys| {
      GatherPrefix(keys[..|keys| - 1], n, groups);
      assert keys[..|keys| - 1][..n] == keys[..n];
    } else {
      assert keys[..n] == keys;
    }
  }

  lemma MidStarts(order: seq<string>, groups: Groups)
    requires Distinct(order) && forall i :: 0 <= i < |order| ==> order[i] in groups && |groups[order[i]]| > 0
    ensures Mid(order, groups, order, 0, 0, map[], [], 0)
  {
    AllRemain(order, groups);
    NothingTaken(order, groups);
    hide Fair, Remaining, Distinct;
    assert order[..0] == [];
  }

  lemma AllRemain(order: seq<string>, groups: Groups)
    requires forall i :: 0 <= i < |order| ==> order[i] in groups && |groups[order[i]]| > 0
    ensures Remaining(order, groups, 0) == order
  {
    FilterAll(order, k => k in groups && |groups[k]| > 0);
  }

  lemma NothingTaken(order: seq<string>, groups: Groups)
    requires forall i :: 0 <= i < |order| ==> order[i] in groups
    ensures Fair(order, groups, map[], 0, [])
  {
  }

  /** The groups are the members of the keys, and none is empty. */
  lemma GroupFacts(paths: seq<string>, key: string -> string)
    ensures var order := Keys(paths, key);
            && Distinct(order) && AllIn(order, GroupMap(order, paths, key))
            && (forall k :: k in order ==> k in GroupMap(order, paths, key) && GroupMap(order, paths, key)[k] == Members(paths, key, k) != [])
  {
    KeysAreDistinct(paths, key);
    forall k | k in Keys(paths, key) ensures Members(paths, key, k) != [] { EveryKeyHasMembers(paths, key, k); }
  }

  lemma SampleStarts(paths: seq<string>, key: string -> string)
    ensures var order := Keys(paths, key);
            Mid(order, GroupMap(order, paths, key), order, 0, 0, map[], [], 0)
  {
    hide Keys, Members, GroupMap, Mid, Distinct;
    GroupFacts(paths, key);
    var order := Keys(paths, key);
    assert forall i :: 0 <= i < |order| ==> order[i] in order;
    MidStarts(order, GroupMap(order, paths, key));
  }

  /** Never more than the groups hold, and all of it once no group has any left. */
  lemma CountFits(order: seq<string>, groups: Groups, active: seq<string>, r: nat, p: nat, taken: Groups, shown: seq<string>, count: nat)
    requires Mid(order, groups, active, r, p, taken, shown, count) && AllIn(order, groups)
    ensures count <= |Gather(order, groups)| && (active == [] ==> count == |Gather(order, groups)|)
  {
    hide Gather, Remaining;
    GatherPrefix(order, |shown|, groups);
    assert order[..|shown|] == shown;
    GatherShorter(shown, taken, groups);
    if active == [] { NothingRemains(order, groups, r, p, taken, shown, count); }
  }

  lemma NothingRemains(order: seq<string>, groups: Groups, r: nat, p: nat, taken: Groups, shown: seq<string>, count: nat)
    requires Mid(order, groups, [], r, p, taken, shown, count) && AllIn(order, groups)
    ensures count == |Gather(order, groups)|
  {
    hide Gather;
    FilterKeeps(order, k => k in groups && |groups[k]| > r);
    hide Filter;
    assert forall k :: k in order ==> |groups[k]| <= r;
    forall i | 0 <= i < |order| ensures order[i] in taken && taken[order[i]] == groups[order[i]] {
      assert order[i] in order && Share(taken, order[i]) == |groups[order[i]]|;
      assert shown[i] == order[i];
    }
    GatherSame(order, taken, groups);
  }

  /** A group with items left holds no less than any later group. */
  lemma EarlierHoldsMore(order: seq<string>, groups: Groups, active: seq<string>, r: nat, p: nat, taken: Groups, i: nat, j: nat)
    requires Distinct(order) && active == Remaining(order, groups, r) && p <= |active| && Fair(order, groups, taken, r, active[..p])
    requires i < j < |order| && order[i] in groups && |groups[order[i]]| > r
    ensures Share(taken, order[j]) <= Share(taken, order[i])
  {
    hide Distinct;
    assert order[i] in order && order[j] in order;
    if order[j] in active[..p] { FilterKeepsOrder(order, k => k in groups && |groups[k]| > r, p, i, j); }
  }

  lemma SharesAreEven(order: seq<string>, groups: Groups, active: seq<string>, r: nat, p: nat, taken: Groups, shown: seq<string>, count: nat)
    requires Mid(order, groups, active, r, p, taken, shown, count)
    ensures forall j, k :: j in order && k in order && Share(taken, j) + 1 < Share(taken, k) ==> Share(taken, j) == |groups[j]|
    ensures forall i, j :: 0 <= i < j < |order| && Share(taken, order[i]) < Share(taken, order[j]) ==> Share(taken, order[i]) == |groups[order[i]]|
  {
    hide Gather, Shown, AllIn, Distinct, Share;
    FilterKeeps(order, k => k in groups && |groups[k]| > r);
    forall i, j | 0 <= i < j < |order| && |groups[order[i]]| > r ensures Share(taken, order[j]) <= Share(taken, order[i]) {
      EarlierHoldsMore(order, groups, active, r, p, taken, i, j);
    }
    assert forall k :: k in order && |groups[k]| <= r ==> Share(taken, k) == |groups[k]|;
    assert forall i :: 0 <= i < |order| ==> order[i] in order;
  }

  lemma ShownIsPrefix(order: seq<string>, taken: Groups, shown: seq<string>)
    requires Shown(order, taken, shown) && Distinct(order)
    ensures |shown| <= |order| && shown == order[..|shown|]
    ensures forall i :: 0 <= i < |order| ==> (order[i] in taken <==> i < |shown|)
  {
    forall i | 0 <= i < |order| ensures order[i] in shown <==> i < |shown| {
      if i < |shown| { assert shown[i] == order[i]; }
    }
  }

  lemma HoldsSomething(order: seq<string>, groups: Groups, active: seq<string>, r: nat, p: nat, taken: Groups, shown: seq<string>, count: nat, k: string)
    requires Mid(order, groups, active, r, p, taken, shown, count) && k in taken && k in groups && groups[k] != []
    ensures k in order && taken[k] != [] && taken[k] <= groups[k]
  {
    hide Gather, Remaining, AllIn, Distinct;
    assert k in order && k in shown;
    assert Share(taken, k) == |taken[k]|;
  }

  lemma SharesAreShown(order: seq<string>, groups: Groups, active: seq<string>, r: nat, p: nat, taken: Groups, shown: seq<string>, count: nat)
    requires Mid(order, groups, active, r, p, taken, shown, count) && forall k :: k in order ==> k in groups && groups[k] != []
    ensures |shown| <= |order| && shown == order[..|shown|]
    ensures forall i :: 0 <= i < |order| ==> (order[i] in taken <==> i < |shown|)
    ensures forall k :: k in taken ==> k in order && taken[k] != [] && taken[k] <= groups[k]
  {
    hide Gather, Remaining, Shown, AllIn, Distinct, Share;
    ShownIsPrefix(order, taken, shown);
    forall k | k in taken ensures k in order && taken[k] != [] && taken[k] <= groups[k] {
      assert k in order;
      HoldsSomething(order, groups, active, r, p, taken, shown, count, k);
    }
  }

  lemma SampleIsEven(paths: seq<string>, key: string -> string, maxItems: int, active: seq<string>, r: nat, p: nat, taken: Groups, shown: seq<string>, count: nat)
    requires var order := Keys(paths, key); Mid(order, GroupMap(order, paths, key), active, r, p, taken, shown, count)
    requires count == (if maxItems < 0 then 0 else maxItems) || (active == [] && count < maxItems)
    ensures AllIn(shown, taken) && Even(paths, key, maxItems, taken, Sample(Gather(shown, taken), |shown|, |Keys(paths, key)|))
  {
    hide Keys, Members, GroupMap, Mid, Gather;
    var order := Keys(paths, key);
    var groups := GroupMap(order, paths, key);
    GroupFacts(paths, key);
    GroupsHoldEveryPath(paths, key);
    CountFits(order, groups, active, r, p, taken, shown, count);
    SharesAreEven(order, groups, active, r, p, taken, shown, count);
    SharesAreShown(order, groups, active, r, p, taken, shown, count);
    MidGathers(order, groups, active, r, p, taken, shown, count);
    assert forall i :: 0 <= i < |order| ==> order[i] in order;
  }

  lemma MidGathers(order: seq<string>, groups: Groups, active: seq<string>, r: nat, p: nat, taken: Groups, shown: seq<string>, count: nat)
    requires Mid(order, groups, active, r, p, taken, shown, count)
    ensures AllIn(shown, taken) && count == |Gather(shown, taken)|
  {
  }

  // ----- The group of a path -----

  function StripLeading(path: string, sep: char): (r: string)
    ensures r == "" || r[0] != sep
  {
    if path != "" && path[0] == sep then StripLeading(path[1..], sep) else path
  }

  function StripTrailing(root: string, sep: char): (r: string)
    ensures r == "" || r[|r| - 1] != sep
  {
    if root != "" && root[|root| - 1] == sep then StripTrailing(root[..|root| - 1], sep) else root
  }

  /** Everything before the first separator. */
  function Head(path: string, sep: char): (r: string)
    ensures sep !in r
  {
    if path == "" || path[0] == sep then "" else [path[0]] + Head(path[1..], sep)
  }

  function RelativeToSearchRoot(path: string, root: string, sep: char): string {
    if root == "." then if ['.', sep] <= path then path[2..] else path
    else
      var trimmed := StripTrailing(root, sep);
      if trimmed == "" then StripLeading(path, sep)
      else if path == trimmed then ""
      else if trimmed + [sep] <= path then path[|trimmed| + 1..]
      else path
  }

  /** The name below the search root that leads to a path. */
  function TopLevelSegment(path: string, sep: char): (r: string)
    ensures sep !in r
  {
    Head(StripLeading(path, sep), sep)
  }

  function TopLevelKey(root: string, sep: char): string -> string {
    path => TopLevelSegment(RelativeToSearchRoot(path, root, sep), sep)
  }

  lemma {:induction false} HeadOf(name: string, rest: string, sep: char)
    requires sep !in name && (rest == "" || rest[0] == sep)
    ensures Head(name + rest, sep) == name
  {
    if name == "" {
      assert name + rest == rest;
    } else {
      assert (name + rest)[1..] == name[1..] + rest;
      HeadOf(name[1..], rest, sep);
    }
  }

  lemma UnderRoot(root: string, sep: char, tail: string)
    requires root != "." && StripTrailing(root, sep) != ""
    ensures RelativeToSearchRoot(StripTrailing(root, sep) + [sep] + tail, root, sep) == tail
  {
    hide StripTrailing;
    var head := StripTrailing(root, sep) + [sep];
    assert head <= head + tail && (head + tail)[|head|..] == tail;
  }

  /** Every path under one entry of the search root, and the entry itself, are in that entry's group,
      however many separators end the root. */
  lemma EntriesAreGroups(root: string, sep: char, name: string, rest: string)
    requires name != "" && sep !in name && (rest == "" || rest[0] == sep) && root != "." && StripTrailing(root, sep) != ""
    ensures TopLevelKey(root, sep)(StripTrailing(root, sep) + [sep] + (name + rest)) == name
  {
    hide StripTrailing, RelativeToSearchRoot, Head;
    UnderRoot(root, sep, name + rest);
    assert (name + rest)[0] == name[0] && name[0] in name;
    assert StripLeading(name + rest, sep) == name + rest;
    HeadOf(name, rest, sep);
  }

  /** A run of separators. */
  predicate Separators(s: string, sep: char) {
    forall i :: 0 <= i < |s| ==> s[i] == sep
  }

  /** A name below a root, alone or followed by a separator and more. */
  predicate Entry(name: string, rest: string, sep: char) {
    name != "" && sep !in name && (rest == "" || rest[0] == sep)
  }

  lemma {:induction false} LeadingSeparators(seps: string, path: string, sep: char)
    requires Separators(seps, sep) && (path == "" || path[0] != sep)
    ensures StripLeading(seps + path, sep) == path
  {
    if seps == "" {
      assert seps + path == path;
    } else {
      assert (seps + path)[1..] == seps[1..] + path;
      LeadingSeparators(seps[1..], path, sep);
    }
  }

  lemma {:induction false} TrailingSeparators(base: string, seps: string, sep: char)
    requires Separators(seps, sep) && (base == "" || base[|base| - 1] != sep)
    ensures StripTrailing(base + seps, sep) == base
  {
    if seps == "" {
      assert base + seps == base;
    } else {
      assert (base + seps)[..|base + seps| - 1] == base + seps[..|seps| - 1];
      TrailingSeparators(base, seps[..|seps| - 1], sep);
    }
  }

  lemma SegmentOfEntry(seps: string, name: string, rest: string, sep: char)
    requires Separators(seps, sep) && Entry(name, rest, sep)
    ensures TopLevelSegment(seps + (name + rest), sep) == name
  {
    hide Head, StripLeading;
    assert (name + rest)[0] == name[0] && name[0] in name;
    LeadingSeparators(seps, name + rest, sep);
    HeadOf(name, rest, sep);
  }

  /** Below a named root, with any number of separators after it, an entry's paths are its group; the
      root itself has the group without a name. */
  lemma NamedRootGroups(base: string, seps: string, name: string, rest: string, sep: char)
    requires base != "" && base[|base| - 1] != sep && Separators(seps, sep) && base + seps != "." && Entry(name, rest, sep)
    ensures TopLevelKey(base + seps, sep)(base + [sep] + (name + rest)) == name && TopLevelKey(base + seps, sep)(base) == ""
  {
    TrailingSeparators(base, seps, sep);
    hide StripTrailing;
    EntriesAreGroups(base + seps, sep, name, rest);
  }

  lemma RelativeToDot(path: string, sep: char)
    ensures RelativeToSearchRoot(['.', sep] + path, ".", sep) == path
    ensures !(['.', sep] <= path) ==> RelativeToSearchRoot(path, ".", sep) == path
  {
    assert (['.', sep] + path)[2..] == path;
  }

  lemma OnlyTheDot(name: string, rest: string, sep: char)
    requires Entry(name, rest, sep)
    ensures ['.', sep] <= name + rest ==> name == "." && rest != ""
  {
    var path := name + rest;
    assert |name| > 1 ==> path[1] == name[1] && name[1] in name;
    assert path[0] == name[0];
    if ['.', sep] <= path {
      assert path[0] == ['.', sep][0] && path[1] == ['.', sep][1];
    }
  }

  /** Below the working directory an entry's paths are its group, with or without the leading dot. */
  lemma DotRootGroups(name: string, rest: string, sep: char)
    requires Entry(name, rest, sep)
    ensures TopLevelKey(".", sep)(['.', sep] + (name + rest)) == name
    ensures name != "." || rest == "" ==> TopLevelKey(".", sep)(name + rest) == name
  {
    hide RelativeToSearchRoot, TopLevelSegment;
    SegmentOfEntry("", name, rest, sep);
    assert "" + (name + rest) == name + rest;
    RelativeToDot(name + rest, sep);
    OnlyTheDot(name, rest, sep);
  }

  lemma RelativeToSeparators(root: string, path: string, sep: char)
    requires Separators(root, sep) && root != "."
    ensures RelativeToSearchRoot(path, root, sep) == StripLeading(path, sep)
  {
    hide StripTrailing, StripLeading;
    TrailingSeparators("", root, sep);
    assert "" + root == root;
  }

  /** Below a root of separators only, or an empty one, an entry's paths are its group, however many
      separators they start with. */
  lemma SeparatorRootGroups(root: string, seps: string, name: string, rest: string, sep: char)
    requires Separators(root, sep) && root != "." && Separators(seps, sep) && Entry(name, rest, sep)
    ensures TopLevelKey(root, sep)(seps + (name + rest)) == name
  {
    assert (name + rest)[0] == name[0] && name[0] in name;
    hide RelativeToSearchRoot, TopLevelSegment, StripLeading;
    RelativeToSeparators(root, seps + (name + rest), sep);
    LeadingSeparators(seps, name + rest, sep);
    SegmentOfEntry("", name, rest, sep);
    assert "" + (name + rest) == name + rest;
  }

  /** Takes one item per group and round until the cap is reached or every group is used up. */
  method TakeRounds(order: seq<string>, groups: Groups, maxItems: int)
    returns (held: Groups, shown: seq<string>, count: nat, ghost round: seq<string>, ghost r: nat, ghost p: nat)
    requires Mid(order, groups, order, 0, 0, map[], [], 0)
    ensures Mid(order, groups, round, r, p, held, shown, count)
    ensures count == (if maxItems < 0 then 0 else maxItems) || (round == [] && count < maxItems)
  {
    hide Mid, Remaining;
    held, shown, count := map[], [], 0;
    var active, index := order, 0;
    round, r, p := order, 0, 0;
    while active != [] && count < maxItems
      invariant Mid(order, groups, round, r, p, held, shown, count)
      invariant count < maxItems ==> p == 0 && active == round && index == r
      invariant count <= if maxItems < 0 then 0 else maxItems
      decreases maxItems - count
    {
      ghost var q;
      var next;
      held, shown, count, next, q := TakeRound(order, groups, active, index, maxItems, held, shown, count);
      if q == |active| {
        RoundEnds(order, groups, active, r, held, shown, count);
        round, r, p := next, r + 1, 0;
      } else {
        round, p := active, q;
      }
      active, index := next, index + 1;
    }
  }

  lemma GroupedMap(order: seq<string>, groups: Groups, paths: seq<string>, key: string -> string)
    requires (forall k :: k in groups <==> k in order) && forall k :: k in order ==> groups[k] == Members(paths, key, k)
    ensures groups == GroupMap(order, paths, key)
  {
    hide Members;
  }

  /** The sampled page: round-robin across the groups of the search root's entries. */
  method SampleAcrossTopLevel(paths: seq<string>, maxItems: int, root: string, sep: char) returns (sample: Sample)
    ensures exists taken :: Even(paths, TopLevelKey(root, sep), maxItems, taken, sample)
  {
    hide Mid, Even, Keys, Members, GroupMap, TopLevelKey;
    var key := TopLevelKey(root, sep);
    var order, groups := GroupBy(paths, key);
    GroupedMap(order, groups, paths, key);
    SampleStarts(paths, key);
    var held, shown, count, round, r, p := TakeRounds(order, groups, maxItems);
    SampleIsEven(paths, key, maxItems, round, r, p, held, shown, count);
    sample := Sample(Gather(shown, held), |shown|, |order|);
  }

  /** A result with one path per group yields its head. */
  lemma FlatSampleIsHead(paths: seq<string>, key: string -> string, maxItems: int, taken: Groups, sample: Sample)
    requires Even(paths, key, maxItems, taken, sample) && |Keys(paths, key)| == |paths|
    ensures sample.items == paths[..Min(if maxItems < 0 then 0 else maxItems, |paths|)]
  {
    FlatGroups(paths, key, sample.shown, taken);
  }

  /** As many keys as items: the i-th group is the i-th item alone. */
  lemma {:induction false} FlatKeys(paths: seq<string>, key: string -> string)
    ensures |Keys(paths, key)| <= |paths|
    ensures |Keys(paths, key)| == |paths| ==> forall i :: 0 <= i < |paths| ==> Keys(paths, key)[i] == key(paths[i]) && Members(paths, key, key(paths[i])) == [paths[i]]
  {
    if paths != [] {
      var init, last := paths[..|paths| - 1], paths[|paths| - 1];
      FlatKeys(init, key);
      if |Keys(paths, key)| == |paths| {
        NoMembers(init, key, key(last));
        KeysAreDistinct(init, key);
        forall i | 0 <= i < |paths| ensures Keys(paths, key)[i] == key(paths[i]) && Members(paths, key, key(paths[i])) == [paths[i]] {
          if i < |init| { assert paths[i] == init[i] && paths[i] in init; }
        }
      }
    }
  }

  lemma FlatAt(paths: seq<string>, key: string -> string, i: nat)
    requires |Keys(paths, key)| == |paths| && i < |paths|
    ensures Members(paths, key, Keys(paths, key)[i]) == [paths[i]]
  {
    FlatKeys(paths, key);
  }

  lemma {:induction false} FlatGroups(paths: seq<string>, key: string -> string, n: nat, taken: Groups)
    requires |Keys(paths, key)| == |paths| && n <= |paths|
    requires forall i :: 0 <= i < n ==> Keys(paths, key)[i] in taken
    requires forall k :: k in taken ==> k in Keys(paths, key) && taken[k] != [] && taken[k] <= Members(paths, key, k)
    ensures AllIn(Keys(paths, key)[..n], taken) && Gather(Keys(paths, key)[..n], taken) == paths[..n]
  {
    if n > 0 {
      hide Keys, Members;
      FlatGroups(paths, key, n - 1, taken);
      FlatAt(paths, key, n - 1);
      var all := Keys(paths, key);
      var k := all[n - 1];
      OneIsPrefix(taken[k], paths[n - 1]);
      GatherSnoc(all, n, taken);
      assert paths[..n] == paths[..n - 1] + [paths[n - 1]];
    }
  }

  lemma OneIsPrefix(s: seq<string>, item: string)
    requires s != [] && s <= [item]
    ensures s == [item]
  {
  }

  lemma GatherSnoc(keys: seq<string>, n: nat, groups: Groups)
    requires 0 < n <= |keys| && AllIn(keys[..n - 1], groups) && keys[n - 1] in groups
    ensures AllIn(keys[..n], groups) && Gather(keys[..n], groups) == Gather(keys[..n - 1], groups) + groups[keys[n - 1]]
  {
    assert keys[..n][..n - 1] == keys[..n - 1];
  }
}
