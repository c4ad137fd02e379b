/** The periodic sweep: list every build, keep the finished ones, order them by
    creation time and delete the oldest beyond the retention count. */
module GarbageCollector {
  import opened BuildTypes

  datatype Item = Item(key: BuildKey, state: BuildState, created: int)

  /** The finished builds of a list, in list order. */
  function FinishedOf(items: seq<Item>): seq<Item> {
    if items == [] then []
    else
      var rest := FinishedOf(items[..|items| - 1]);
      var last := items[|items| - 1];
      if Finished(last.state) then rest + [last] else rest
  }

  /** `picked` holds the oldest finished builds of `items`, all but `retention` of them:
      no finished build left behind is older than a picked one. */
  predicate OldestFinished(items: seq<Item>, retention: nat, picked: seq<Item>) {
    var finished := multiset(FinishedOf(items));
    && multiset(picked) <= finished
    && |picked| == (if |finished| <= retention then 0 else |finished| - retention)
    && forall p: Item, kept: Item ::
         p in multiset(picked) && kept in finished - multiset(picked) ==> p.created <= kept.created
  }

  lemma {:induction false} FinishedOfCounts(items: seq<Item>, x: Item)
    ensures multiset(FinishedOf(items))[x] ==
            if x.state == Completed || x.state == Failed then multiset(items)[x] else 0
  {
    if items != [] {
      FinishedOfCounts(items[..|items| - 1], x);
      assert items == items[..|items| - 1] + [items[|items| - 1]];
    }
  }

  /** With nothing to be retained, the one finished build of a list is picked. */
  lemma FinishedOfOne(x: Item)
    requires Finished(x.state)
    ensures OldestFinished([x], 0, [x])
  {
    assert [x][..0] == [];
    assert FinishedOf([x]) == [x];
  }

  /** Only finished builds of the list are ever picked. */
  lemma PickedAreFinished(items: seq<Item>, retention: nat, picked: seq<Item>, x: Item)
    requires OldestFinished(items, retention, picked)
    requires x in picked
    ensures x in items && (x.state == Completed || x.state == Failed)
  {
    assert x in multiset(picked);
    FinishedOfCounts(items, x);
    assert x in multiset(items);
  }

  ghost predicate DistinctKeys(items: seq<Item>) {
    forall i, j :: 0 <= i < j < |items| ==> items[i].key != items[j].key
  }

  lemma {:induction false} DistinctOccurOnce(items: seq<Item>, x: Item)
    requires DistinctKeys(items)
    ensures multiset(items)[x] <= 1
  {
    if items != [] {
      var n := |items| - 1;
      DistinctOccurOnce(items[..n], x);
      assert items == items[..n] + [items[n]];
      if x == items[n] { assert x !in items[..n]; }
    }
  }

  /** What is selected from a list without repeated keys does not repeat any. */
  lemma SelectionIsDistinct(items: seq<Item>, selected: seq<Item>)
    requires DistinctKeys(items) && multiset(selected) <= multiset(items)
    ensures DistinctKeys(selected) && forall x :: x in selected ==> x in items
  {
    forall x | x in selected ensures x in items {
      assert x in multiset(selected);
      assert x in multiset(items);
    }
    forall i, j | 0 <= i < j < |selected| ensures selected[i].key != selected[j].key {
      var x, y := selected[i], selected[j];
      assert x in items && y in items;
      if x.key == y.key {
        assert x == y;
        TwiceIn(selected, i, j);
        DistinctOccurOnce(items, x);
      }
    }
  }

  lemma TwiceIn(s: seq<Item>, i: nat, j: nat)
    requires i < j < |s| && s[i] == s[j]
    ensures multiset(s)[s[i]] >= 2
  {
    assert s == s[..j] + [s[j]] + s[j + 1..];
    assert s[i] in s[..j];
  }

  lemma {:induction false} KeysCount(items: seq<Item>)
    requires DistinctKeys(items)
    ensures |set x | x in items :: x.key| == |items|
  {
    if items != [] {
      var n := |items| - 1;
      KeysCount(items[..n]);
      var keys := set x | x in items[..n] :: x.key;
      assert items[n].key !in keys;
      assert (set x | x in items :: x.key) == keys + {items[n].key};
    }
  }

  /** Once every picked build is gone, the next sweep picks nothing. */
  lemma SecondSweepPicksNothing(items: seq<Item>, retention: nat, picked: seq<Item>, rest: seq<Item>, again: seq<Item>)
    requires OldestFinished(items, retention, picked)
    requires multiset(rest) == multiset(items) - multiset(picked)
    requires OldestFinished(rest, retention, again)
    ensures again == []
  {
    var finished := multiset(FinishedOf(items));
    forall x: Item ensures multiset(FinishedOf(rest))[x] == (finished - multiset(picked))[x] {
      FinishedOfCounts(rest, x);
      FinishedOfCounts(items, x);
    }
    assert multiset(FinishedOf(rest)) == finished - multiset(picked);
    assert |finished - multiset(picked)| == |finished| - |picked|;
  }

  function KeysOf(items: seq<Item>): seq<BuildKey> {
    seq(|items|, i requires 0 <= i < |items| => items[i].key)
  }

  ghost predicate SortedByCreation(s: seq<Item>) {
    forall i, j :: 0 <= i < j < |s| ==> s[i].created <= s[j].created
  }

  /** A prefix of a sorted arrangement of the finished builds is a pick. */
  lemma SortedPrefixIsOldest(items: seq<Item>, sorted: seq<Item>, retention: nat)
    requires multiset(sorted) == multiset(FinishedOf(items))
    requires SortedByCreation(sorted)
    requires |sorted| > retention
    ensures OldestFinished(items, retention, sorted[..|sorted| - retention])
  {
    var n := |sorted| - retention;
    var picked, kept := sorted[..n], sorted[n..];
    assert sorted == picked + kept;
    assert multiset(sorted) == multiset(picked) + multiset(kept);
    assert |multiset(FinishedOf(items))| == |multiset(sorted)| == |sorted|;
    forall p: Item, q: Item | p in multiset(picked) && q in multiset(sorted) - multiset(picked)
      ensures p.created <= q.created
    {
      assert multiset(sorted) - multiset(picked) == multiset(kept);
      assert p in picked && q in kept;
    }
  }

  method Swap(a: array<Item>, i: nat, j: nat)
    requires i < a.Length && j < a.Length
    modifies a
    ensures a[..] == old(a[..])[i := old(a[j])][j := old(a[i])]
    ensures multiset(a[..]) == multiset(old(a[..]))
  {
    a[i], a[j] := a[j], a[i];
  }

  /** Sorts in place; callers learn nothing about the order of equal timestamps. */
  method SortByCreation(a: array<Item>)
    modifies a
    ensures SortedByCreation(a[..])
    ensures multiset(a[..]) == multiset(old(a[..]))
  {
    var i := 0;
    while i < a.Length
      invariant 0 <= i <= a.Length
      invariant forall x, y :: 0 <= x < y < a.Length && x < i ==> a[x].created <= a[y].created
      invariant multiset(a[..]) == multiset(old(a[..]))
    {
      var least, j := i, i + 1;
      while j < a.Length
        invariant i <= least < a.Length && i < j <= a.Length
        invariant forall y :: i <= y < j ==> a[least].created <= a[y].created
      {
        if a[j].created < a[least].created { least := j; }
        j := j + 1;
      }
      Swap(a, i, least);
      i := i + 1;
    }
  }

  method FilterFinished(items: seq<Item>) returns (finished: seq<Item>)
    ensures finished == FinishedOf(items)
  {
    finished := [];
    for n := 0 to |items|
      invariant finished == FinishedOf(items[..n])
    {
      assert items[..n + 1][..n] == items[..n];
      if Finished(items[n].state) { finished := finished + [items[n]]; }
    }
    assert items[..|items|] == items;
  }

  method Sorted(items: seq<Item>) returns (sorted: seq<Item>)
    ensures SortedByCreation(sorted) && multiset(sorted) == multiset(items) && |sorted| == |items|
  {
    var a := new Item[|items|](i requires 0 <= i < |items| => items[i]);
    assert a[..] == items;
    SortByCreation(a);
    return a[..];
  }

  lemma FewAreKept(items: seq<Item>, retention: nat)
    requires |FinishedOf(items)| <= retention
    ensures OldestFinished(items, retention, [])
  {
    assert |multiset(FinishedOf(items))| == |FinishedOf(items)|;
  }

  /** Filters and sorts a list and cuts it at the retention count; the oldest come first. */
  method SelectOldest(items: seq<Item>, retention: nat) returns (picked: seq<Item>)
    ensures OldestFinished(items, retention, picked) && SortedByCreation(picked)
  {
    var finished := FilterFinished(items);
    if |finished| <= retention {
      FewAreKept(items, retention);
      return [];
    }
    var sorted := Sorted(finished);
    SortedPrefixIsOldest(items, sorted, retention);
    return sorted[..|sorted| - retention];
  }
}
