/**
Grouping a list by key: keys in first-seen order, and each group in list order.
 */
module Grouping {
  import opened SessionLog

  function Keys(items: seq<string>, key: string -> string): seq<string> {
    if items == [] then []
    else
      var before, k := Keys(items[..|items| - 1], key), key(items[|items| - 1]);
      if k in before then before else before + [k]
  }

  function Filter(items: seq<string>, keep: string -> bool): seq<string> {
    if items == [] then []
    else Filter(items[..|items| - 1], keep) + if keep(items[|items| - 1]) then [items[|items| - 1]] else []
  }

  function Members(items: seq<string>, key: string -> string, k: string): seq<string> {
    Filter(items, item => key(item) == k)
  }

  lemma {:induction false} KeysAreDistinct(items: seq<string>, key: string -> string)
    ensures Distinct(Keys(items, key))
    ensures forall item :: item in items ==> key(item) in Keys(items, key)
  {
    if items != [] {
      var init := items[..|items| - 1];
      KeysAreDistinct(init, key);
      assert items == init + [items[|items| - 1]];
    }
  }

  lemma {:induction false} FilterKeeps(items: seq<string>, keep: string -> bool)
    ensures forall item :: item in Filter(items, keep) <==> item in items && keep(item)
    ensures Distinct(items) ==> Distinct(Filter(items, keep))
  {
    if items != [] {
      var init := items[..|items| - 1];
      FilterKeeps(init, keep);
      assert items == init + [items[|items| - 1]];
    }
  }

  /** Groups keep list order: the group of a list is the group of its first part followed by that of
      the rest, and one item is in the group of its own key alone. */
  lemma {:induction false} MembersInOrder(a: seq<string>, b: seq<string>, key: string -> string, k: string)
    ensures Members(a + b, key, k) == Members(a, key, k) + Members(b, key, k)
    ensures |b| == 1 ==> Members(b, key, k) == if key(b[0]) == k then b else []
  {
    if b == [] {
      assert a + b == a;
    } else {
      var init := b[..|b| - 1];
      MembersInOrder(a, init, key, k);
      assert (a + b)[..|a + b| - 1] == a + init;
    }
  }

  /** No item before p has the key of item p. */
  ghost predicate FirstSeen(items: seq<string>, key: string -> string, p: nat) {
    p < |items| && forall j :: 0 <= j < p ==> key(items[j]) != key(items[p])
  }

  lemma FirstSeenOneMore(items: seq<string>, key: string -> string, last: string)
    ensures forall p: nat :: FirstSeen(items, key, p) ==> FirstSeen(items + [last], key, p) && (items + [last])[p] == items[p]
    ensures (forall item :: item in items ==> key(item) != key(last)) ==> FirstSeen(items + [last], key, |items|)
  {
  }

  /** The keys in the order in which they are first seen. */
  lemma {:induction false} KeysInOrder(items: seq<string>, key: string -> string) returns (at: seq<nat>)
    ensures |at| == |Keys(items, key)| && forall i :: 0 <= i < |at| ==> FirstSeen(items, key, at[i]) && key(items[at[i]]) == Keys(items, key)[i]
    ensures forall i, j :: 0 <= i < j < |at| ==> at[i] < at[j]
  {
    at := [];
    if items != [] {
      var n := |items| - 1;
      var init, last := items[..n], items[n];
      assert items == init + [last];
      at := KeysInOrder(init, key);
      assert forall i :: 0 <= i < |at| ==> at[i] < n;
      KeysAreDistinct(init, key);
      FirstSeenOneMore(init, key, last);
      hide FirstSeen;
      if key(last) !in Keys(init, key) { at := at + [n]; }
    }
  }

  lemma DistinctConcat(x: seq<string>, y: seq<string>)
    requires Distinct(x) && Distinct(y) && forall item :: item in x ==> item !in y
    ensures Distinct(x + y)
  {
    forall i, j | 0 <= i < j < |x + y| ensures (x + y)[i] != (x + y)[j] {
      if i < |x| <= j { assert x[i] in x && y[j - |x|] in y; }
    }
  }

  method GroupBy(items: seq<string>, key: string -> string) returns (order: seq<string>, groups: map<string, seq<string>>)
    ensures order == Keys(items, key)
    ensures forall k :: k in groups <==> k in order
    ensures forall k :: k in order ==> groups[k] == Members(items, key, k)
  {
    order, groups := [], map[];
    for i := 0 to |items|
      invariant order == Keys(items[..i], key)
      invariant forall k :: k in groups <==> k in order
      invariant forall k :: k in order ==> groups[k] == Members(items[..i], key, k)
      invariant forall k :: k !in order ==> Members(items[..i], key, k) == []
    {
      assert items[..i + 1][..i] == items[..i];
      var k := key(items[i]);
      if k !in groups {
        order, groups := order + [k], groups[k := []];
      }
      groups := groups[k := groups[k] + [items[i]]];
    }
    assert items[..|items|] == items;
  }
}
