/** The garbage-collection sweep as code against the shared API server. */
module Sweeper {
  import opened BuildTypes
  import opened Cluster
  import opened GarbageCollector
  import opened Protocol
  import opened ProtocolInvariant
  import opened ProtocolTheorems

  /** The builds that were told to go are known and no longer live. */
  ghost predicate Leaving(s: State, keys: seq<BuildKey>) {
    forall b :: b in keys ==> b in s.cells && !Live(s.cells[b])
  }

  lemma LeavingStays(s: State, s': State, keys: seq<BuildKey>)
    requires Leaving(s, keys) && Undisturbed(Cluster.Sweeper, s, s')
    ensures Leaving(s', keys)
  {
    forall b | b in keys ensures b in s'.cells && !Live(s'.cells[b]) {
      assert CellUndisturbed(Cluster.Sweeper, b, s.cells[b], s'.cells[b]);
    }
  }

  /** The builds are gone altogether. */
  ghost predicate Absent(s: State, keys: seq<BuildKey>) {
    forall b :: b in keys ==> b in s.cells && s.cells[b].build.None?
  }

  lemma AbsentStays(s: State, s': State, keys: seq<BuildKey>)
    requires Absent(s, keys) && Undisturbed(Cluster.Sweeper, s, s')
    ensures Absent(s', keys)
  {
    forall b | b in keys ensures b in s'.cells && s'.cells[b].build.None? {
      assert CellUndisturbed(Cluster.Sweeper, b, s.cells[b], s'.cells[b]);
    }
  }

  /** A list of an earlier state shows builds as they were. */
  lemma ListingIsGlimpse(s: State, s': State, items: seq<Item>)
    requires Earlier(s, s') && Listing(s, items)
    ensures Glimpsed(s', items)
  {
    forall x | x in items ensures x.key in s'.cells && (x.state == Unset || x.state in s'.cells[x.key].history) {
      ReachableIsSound(s, x.key);
      assert s.cells[x.key].history <= s'.cells[x.key].history;
    }
  }

  /** The build is there and has ended, one way or the other. */
  ghost predicate Ended(c: Cell) {
    c.build.Some? && (c.build.value.status.state == Completed || c.build.value.status.state == Failed)
  }

  /** `asked` are the oldest ended builds of the state, all but `retention` of them, oldest first: none that is left
      was created before one of them. */
  ghost predicate Oldest(s: State, retention: nat, asked: seq<BuildKey>) {
    && (forall b :: b in asked ==> b in s.cells && Ended(s.cells[b]))
    && (forall i, j :: 0 <= i < j < |asked| ==>
          && asked[i] != asked[j]
          && s.cells[asked[i]].build.value.created <= s.cells[asked[j]].build.value.created)
    && (forall b, left :: b in asked && left in s.cells && Ended(s.cells[left]) && left !in asked ==>
          s.cells[b].build.value.created <= s.cells[left].build.value.created)
    && var ended := |set b | b in s.cells && Ended(s.cells[b])|;
       |asked| == if ended <= retention then 0 else ended - retention
  }

  /** Selecting from a list of a state selects its oldest ended builds. */
  lemma SelectionIsOldest(s: State, items: seq<Item>, retention: nat, picked: seq<Item>)
    requires Listing(s, items) && OldestFinished(items, retention, picked) && SortedByCreation(picked)
    ensures Oldest(s, retention, KeysOf(picked))
  {
    var asked := KeysOf(picked);
    PickedAsListed(s, items, retention, picked);
    forall b, left | b in asked && left in s.cells && Ended(s.cells[left]) && left !in asked
      ensures s.cells[b].build.value.created <= s.cells[left].build.value.created
    {
      var n :| 0 <= n < |asked| && asked[n] == b;
      LeftIsYounger(s, items, retention, picked, n, left);
    }
    EndedCount(s, items);
  }

  /** What is picked is an ended build, shown with its creation time, and no build twice. */
  lemma PickedAsListed(s: State, items: seq<Item>, retention: nat, picked: seq<Item>)
    requires Listing(s, items) && OldestFinished(items, retention, picked)
    ensures DistinctKeys(picked)
    ensures forall n :: 0 <= n < |picked| ==>
              && picked[n].key in s.cells && Ended(s.cells[picked[n].key])
              && s.cells[picked[n].key].build.value.created == picked[n].created
  {
    FinishedIsSelection(items);
    SelectionIsDistinct(items, picked);
    forall n | 0 <= n < |picked|
      ensures picked[n].key in s.cells && Ended(s.cells[picked[n].key])
      ensures s.cells[picked[n].key].build.value.created == picked[n].created
    {
      PickedAreFinished(items, retention, picked, picked[n]);
    }
  }

  lemma LeftIsYounger(s: State, items: seq<Item>, retention: nat, picked: seq<Item>, n: nat, left: BuildKey)
    requires Listing(s, items) && OldestFinished(items, retention, picked) && n < |picked|
    requires left in s.cells && Ended(s.cells[left]) && left !in KeysOf(picked)
    ensures picked[n].created <= s.cells[left].build.value.created
  {
    LeftIsKept(s, items, picked, left);
    assert picked[n] in multiset(picked);
  }

  lemma FinishedIsSelection(items: seq<Item>)
    ensures multiset(FinishedOf(items)) <= multiset(items)
  {
    forall x ensures multiset(FinishedOf(items))[x] <= multiset(items)[x] { FinishedOfCounts(items, x); }
  }

  lemma LeftIsKept(s: State, items: seq<Item>, picked: seq<Item>, b: BuildKey)
    requires Listing(s, items) && b in s.cells && Ended(s.cells[b]) && b !in KeysOf(picked)
    ensures exists x :: x in multiset(FinishedOf(items)) - multiset(picked) && x.key == b
                        && x.created == s.cells[b].build.value.created
  {
    var x :| x in items && x.key == b;
    FinishedOfCounts(items, x);
    forall n | 0 <= n < |picked| ensures picked[n] != x { assert KeysOf(picked)[n] == picked[n].key; }
    assert x in multiset(items) && x !in multiset(picked);
    assert (multiset(FinishedOf(items)) - multiset(picked))[x] > 0;
  }

  lemma EndedCount(s: State, items: seq<Item>)
    requires Listing(s, items)
    ensures |set b | b in s.cells && Ended(s.cells[b])| == |FinishedOf(items)|
  {
    var finished, ended := FinishedOf(items), set b | b in s.cells && Ended(s.cells[b]);
    FinishedIsSelection(items);
    SelectionIsDistinct(items, finished);
    KeysCount(finished);
    forall b | b in ended ensures exists x :: x in finished && x.key == b {
      LeftIsKept(s, items, [], b);
      var x: Item :| x in multiset(finished) - multiset([]) && x.key == b;
      assert x in finished;
    }
    forall x | x in finished ensures x.key in ended {
      assert x in multiset(finished);
      FinishedOfCounts(items, x);
    }
    assert ended == set x | x in finished :: x.key;
  }

  /** What a sweeper has counted at some time. */
  datatype Counters = Counters(requests: seq<BuildKey>, successful: nat, failed: nat, faults: nat)

  class Sweeper {
    const api: ApiServer
    var requests: seq<BuildKey>  // the delete calls made, in order
    var successful: nat  // the two labels of the exported counter
    var failed: nat
    ghost var faults: nat  // calls that have failed, or whose reply was lost

    constructor (api: ApiServer)
      ensures this.api == api && requests == [] && successful == failed == faults == 0
    {
      this.api := api;
      requests, successful, failed, faults := [], 0, 0, 0;
    }

    /** A call to the server, or its reply. */
    method Call() returns (ok: bool)
      modifies this`faults
      ensures faults == old(faults) + if ok then 0 else 1
    {
      ok := *;
      if !ok { faults := faults + 1; }
    }

    /** Every build of a state, in whatever order the list comes. */
    method List(s: State) returns (items: seq<Item>)
      ensures Listing(s, items)
    {
      var left: set<BuildKey>;
      items, left := [], s.cells.Keys;
      while left != {}
        invariant left <= s.cells.Keys
        invariant forall x :: x in items ==>
                    && x.key in s.cells && x.key !in left
                    && s.cells[x.key].build.Some? && x == ItemOf(x.key, s.cells[x.key].build.value)
        invariant forall b :: b in s.cells && b !in left && s.cells[b].build.Some? ==>
                    ItemOf(b, s.cells[b].build.value) in items
        invariant forall i, j :: 0 <= i < j < |items| ==> items[i].key != items[j].key
      {
        var b :| b in left;
        if s.cells[b].build.Some? { items := items + [ItemOf(b, s.cells[b].build.value)]; }
        left := left - {b};
      }
    }

    /** Lists through the cache and selects. What the sweep will delete is fixed here, by the state
        it `saw`. */
    method Select(retention: nat)
      returns (items: seq<Item>, picked: seq<Item>, ghost saw: State, ghost seen: seq<Step>)
      requires api.Valid() && api.s.sweep == []
      modifies api
      ensures api.Valid() && old(api.trace) <= api.trace && api.s.sweep == KeysOf(picked)
      ensures seen <= api.trace && saw == Exec(INIT, seen)
      ensures Listing(saw, items) && OldestFinished(items, retention, picked) && SortedByCreation(picked)
      ensures Oldest(saw, retention, KeysOf(picked))
    {
      var cache;
      cache, seen := api.Cached();
      saw := cache;
      items := List(cache);
      picked := SelectOldest(items, retention);
      ListingIsGlimpse(saw, api.s, items);
      SelectionIsOldest(saw, items, retention, picked);
      api.Take(StartSweep(items, retention, picked));
    }

    /** One delete call; it fails when the build is gone, the call does not go through or its reply is lost. */
    method Delete(b: BuildKey) returns (ok: bool)
      requires api.Valid() && api.s.sweep != [] && api.s.sweep[0] == b
      modifies this`requests, this`faults, api
      ensures api.Valid() && old(api.trace) <= api.trace
      ensures api.s.sweep == old(api.s.sweep[1..]) && requests == old(requests) + [b]
      ensures old(faults) <= faults <= old(faults) + 1
      ensures b in old(api.s.cells) && b in api.s.cells
      ensures ok <==> faults == old(faults) && old(api.s.cells[b].build.Some?)
      ensures faults == old(faults) ==> !Live(api.s.cells[b])
      ensures faults == old(faults) && old(Live(api.s.cells[b])) ==> api.s.cells[b].build.Some?
      ensures forall k :: k in old(api.s.cells) ==> k in api.s.cells && Outlasts(old(api.s.cells[k]), api.s.cells[k])
    {
      ghost var before := api.s;
      Safe(api.trace);
      var sent := Call();
      ok := sent && api.s.cells[b].build.Some?;
      ghost var after := Apply(before, SweepDelete(!sent));
      forall k | k in before.cells ensures k in after.cells && Outlasts(before.cells[k], after.cells[k]) {
        StepEffect(before, SweepDelete(!sent), k);
      }
      api.Take(SweepDelete(!sent));
      requests := requests + [b];
      if sent {
        var replied := Call();
        ok := ok && replied;
      }
    }

    /** The next delete call, with everybody else acting before it; what had to go stays so. `there` says whether the
        build still was. */
    method DeleteNext(b: BuildKey, ghost gone: seq<BuildKey>, ghost absent: seq<BuildKey>)
      returns (ok: bool, ghost there: bool)
      requires api.Valid() && api.s.sweep != [] && api.s.sweep[0] == b && Leaving(api.s, gone) && Absent(api.s, absent)
      modifies this`requests, this`faults, api
      ensures api.Valid() && old(api.trace) <= api.trace
      ensures api.s.sweep == old(api.s.sweep[1..]) && requests == old(requests) + [b]
      ensures old(faults) <= faults <= old(faults) + 1 && (ok <==> faults == old(faults) && there)
      ensures Leaving(api.s, if faults == old(faults) then gone + [b] else gone)
      ensures Absent(api.s, if there then absent else absent + [b])
    {
      ghost var before := api.s;
      api.Others(Cluster.Sweeper);
      LeavingStays(before, api.s, gone);
      AbsentStays(before, api.s, absent);
      Safe(api.trace);
      there := api.s.cells[b].build.Some?;
      ok := Delete(b);
    }

    /** One sweep, with everybody else acting before every call. It asks for exactly the builds selected
        from its list, oldest first, and every call that did not fail leaves its build deleted. `missing` are builds
        that were gone when it was their turn. The "successful" counter also counts failed calls. */
    method RunGC(retention: nat)
      returns (items: Option<seq<Item>>, picked: seq<Item>, ghost gone: seq<BuildKey>, ghost missing: seq<BuildKey>,
               ghost saw: State)
      requires api.Valid() && api.s.sweep == []
      modifies this, api
      ensures api.Valid() && api.s.sweep == [] && Earlier(old(api.s), api.s)
      ensures items.Some? ==>
                && Earlier(saw, api.s) && Oldest(saw, retention, KeysOf(picked)) && Listing(saw, items.value)
                && OldestFinished(items.value, retention, picked) && SortedByCreation(picked)
      ensures items.None? ==> picked == [] && faults == old(faults) + 1
      ensures requests == old(requests) + KeysOf(picked)
      ensures Leaving(api.s, gone) && Absent(api.s, missing)
      ensures (forall b :: b in gone || b in missing ==> b in KeysOf(picked))
      ensures faults == old(faults) ==> gone == KeysOf(picked)
      ensures successful == old(successful) + |picked|
      ensures items.Some? ==>
                && |picked| - |gone| == faults - old(faults)
                && failed == old(failed) + |missing| + faults - old(faults)
    {
      picked, gone, missing, saw := [], [], [], INIT;
      ghost var seen := [];
      api.Others(Cluster.Sweeper);
      var listed := Call();
      items := None;
      if listed {
        var list;
        list, picked, saw, seen := Select(retention);
        items := Some(list);
        gone, missing := DeleteAll(KeysOf(picked));
        EarlierAlong(seen, api.trace);
      }
      EarlierAlong(old(api.trace), api.trace);
    }

    /** The calls for `asked[..n]` have been made since the counters stood as given. */
    ghost predicate Swept(before: Counters, asked: seq<BuildKey>, n: nat, gone: seq<BuildKey>, missing: seq<BuildKey>)
      requires n <= |asked|
      reads this, api
    {
      && api.Valid() && api.s.sweep == asked[n..] && requests == before.requests + asked[..n]
      && Leaving(api.s, gone) && Absent(api.s, missing)
      && (forall b :: b in gone || b in missing ==> b in asked)
      && before.faults <= faults && (faults == before.faults ==> gone == asked[..n])
      && n - |gone| == faults - before.faults && successful == before.successful + n
      && failed == before.failed + |missing| + faults - before.faults
    }

    /** One more call. */
    method DeleteAt(ghost before: Counters, asked: seq<BuildKey>, n: nat, ghost gone: seq<BuildKey>,
                    ghost missing: seq<BuildKey>)
      returns (ghost gone': seq<BuildKey>, ghost missing': seq<BuildKey>)
      requires n < |asked| && Swept(before, asked, n, gone, missing)
      modifies this, api
      ensures old(api.trace) <= api.trace && Swept(before, asked, n + 1, gone', missing')
    {
      gone', missing' := gone, missing;
      ghost var was := faults;
      var ok, there := DeleteNext(asked[n], gone, missing);
      if faults == was {
        gone' := gone + [asked[n]];
        if !there { missing' := missing + [asked[n]]; }
      }
      if !ok { failed := failed + 1; }
      successful := successful + 1;
    }

    method DeleteAll(asked: seq<BuildKey>) returns (ghost gone: seq<BuildKey>, ghost missing: seq<BuildKey>)
      requires api.Valid() && api.s.sweep == asked
      modifies this, api
      ensures api.Valid() && old(api.trace) <= api.trace && api.s.sweep == []
      ensures requests == old(requests) + asked
      ensures Leaving(api.s, gone) && Absent(api.s, missing)
      ensures (forall b :: b in gone || b in missing ==> b in asked)
      ensures old(faults) <= faults && (faults == old(faults) ==> gone == asked)
      ensures |asked| - |gone| == faults - old(faults) && successful == old(successful) + |asked|
      ensures failed == old(failed) + |missing| + faults - old(faults)
    {
      gone, missing := [], [];
      ghost var before := Counters(requests, successful, failed, faults);
      for n := 0 to |asked|
        invariant old(api.trace) <= api.trace && Swept(before, asked, n, gone, missing)
      {
        gone, missing := DeleteAt(before, asked, n, gone, missing);
      }
      assert asked[..|asked|] == asked;
    }
  }
}
