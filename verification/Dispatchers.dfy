/** The three dispatcher classes: a demand table (and a partition map) updated in
    place, each operation proved against the functions of module Dispatch. */
module Dispatchers {
  import opened Seqs
  import opened Wrappers

  import opened Dispatch
  import opened Tables

  /** `sum(self._demand.values())` */
  method SumOfValues(t: Table) returns (sum: int)
    ensures sum == Total(t)
  {
    sum := 0;
    var rest := t;
    while rest != map[]
      invariant sum + Total(rest) == Total(t)
      decreases |rest|
    {
      var s :| s in rest;
      TotalWithout(rest, s);
      sum := sum + rest[s];
      rest := rest - {s};
    }
  }

  /** `min(self._demand.values(), default=0)` */
  method MinOfValues(t: Table) returns (low: int)
    ensures low == Least(t)
  {
    LeastIsMinimum(t);
    if t == map[] {
      return 0;
    }
    var s :| s in t;
    low := t[s];
    var rest := t - {s};
    while rest != map[]
      invariant rest.Keys <= t.Keys && forall k :: k in rest ==> rest[k] == t[k]
      invariant forall k :: k in t && k !in rest ==> low <= t[k]
      invariant exists k :: k in t && t[k] == low
      decreases |rest|
    {
      var k :| k in rest;
      low := Min(low, rest[k]);
      rest := rest - {k};
    }
  }

  /** Serving one more slice extends exactly one batch of the result. */
  lemma RoutedExtends(subs: seq<SubId>, slices: seq<Slice>, slice: Slice)
    requires slice.sub in subs
    ensures Routed(subs, slices + [slice])
         == Routed(subs, slices)[slice.sub := Routed(subs, slices)[slice.sub] + slice.batch]
  {
    forall s | s in subs
      ensures BatchFor(slices + [slice], s) == BatchFor(slices, s) + if s == slice.sub then slice.batch else []
    {
      BatchForConcat(slices, [slice], s);
      assert BatchFor([slice], s) == if s == slice.sub then slice.batch else [];
    }
    var was, now := Routed(subs, slices), Routed(subs, slices + [slice]);
    assert now.Keys == was[slice.sub := was[slice.sub] + slice.batch].Keys;
    assert forall s :: s in now ==> now[s] == was[slice.sub := was[slice.sub] + slice.batch][s];
  }

  /** A dispatch that has already cut `slices` and left `left`, with `r` still to come, reaches `goal`. */
  ghost predicate Reaches(goal: Served, slices: seq<Slice>, left: seq<Event>, r: Served) {
    goal.slices == slices + r.slices && goal.leftover == left + r.leftover && goal.demand == r.demand
  }

  lemma ReachesSlice(goal: Served, slices: seq<Slice>, left: seq<Event>, r: Served, rest: Served)
    requires Reaches(goal, slices, left, r)
    requires r.slices != [] && r.slices[1..] == rest.slices && r.leftover == rest.leftover && r.demand == rest.demand
    ensures Reaches(goal, slices + [r.slices[0]], left, rest)
  {
    assert slices + r.slices == slices + [r.slices[0]] + r.slices[1..];
  }

  lemma ReachesLeft(goal: Served, slices: seq<Slice>, left: seq<Event>, r: Served, rest: Served, e: Event)
    requires Reaches(goal, slices, left, r)
    requires r.slices == rest.slices && r.leftover == [e] + rest.leftover && r.demand == rest.demand
    ensures Reaches(goal, slices, left + [e], rest)
  {
    assert left + ([e] + rest.leftover) == left + [e] + rest.leftover;
  }

  lemma ServeOneMore(goal: Served, slices: seq<Slice>, t: Table, subs: seq<SubId>, events: seq<Event>)
    requires events != [] && AnyPositive(t, subs)
    requires Reaches(goal, slices, [], ServeByDemand(t, subs, events))
    ensures var best := Best(t, subs); var n := Min(|events|, t[best]);
            1 <= n <= |events| &&
            Reaches(goal, slices + [Slice(best, events[..n])], [],
                    ServeByDemand(t[best := t[best] - n], subs, events[n..]))
  {
    var best := Best(t, subs);
    var n := Min(|events|, t[best]);
    ServeByDemandStep(t, subs, events);
    ReachesSlice(goal, slices, [], ServeByDemand(t, subs, events),
                 ServeByDemand(t[best := t[best] - n], subs, events[n..]));
  }

  class DemandDispatcher {
    var demand: Table

    constructor ()
      ensures demand == map[]
    {
      demand := map[];
    }

    method Subscribe(s: SubId)
      modifies this
      ensures demand == old(demand)[s := 0]
    {
      demand := demand[s := 0];
    }

    method Cancel(s: SubId)
      modifies this
      ensures demand == old(demand) - {s}
    {
      demand := demand - {s};
    }

    /** Returns the growth of the total. */
    method Ask(s: SubId, count: int) returns (growth: int)
      modifies this
      ensures demand == old(demand)[s := Get(old(demand), s) + count]
      ensures growth == Total(demand) - Total(old(demand))
    {
      TotalUpdate(demand, s, Get(demand, s) + count);
      demand := demand[s := Get(demand, s) + count];
      growth := count;
    }

    method TotalPending() returns (pending: int)
      ensures pending == Total(demand)
    {
      pending := SumOfValues(demand);
    }

    method Dispatch(events: seq<Event>, subs: seq<SubId>)
      returns (remaining: seq<Event>, result: map<SubId, seq<Event>>)
      modifies this
      ensures var r := ServeByDemand(old(demand), subs, events);
              remaining == r.leftover && demand == r.demand && result == Routed(subs, r.slices)
    {
      ghost var goal := ServeByDemand(demand, subs, events);
      ghost var slices: seq<Slice> := [];
      result := map s | s in subs :: [];
      remaining := events;
      while remaining != [] && AnyPositive(demand, subs)
        invariant Reaches(goal, slices, [], ServeByDemand(demand, subs, remaining))
        invariant result == Routed(subs, slices)
        decreases |remaining|
      {
        remaining, result, slices := ServeBest(remaining, subs, result, goal, slices);
      }
      assert goal.slices == slices;
    }

    /** One round of the loop: as much as it asked for to the subscriber that asked most. */
    method ServeBest(events: seq<Event>, subs: seq<SubId>, routed: map<SubId, seq<Event>>, ghost goal: Served,
                     ghost slices: seq<Slice>)
      returns (remaining: seq<Event>, result: map<SubId, seq<Event>>, ghost slices': seq<Slice>)
      requires events != [] && AnyPositive(demand, subs) && routed == Routed(subs, slices)
      requires Reaches(goal, slices, [], ServeByDemand(demand, subs, events))
      modifies this
      ensures |remaining| < |events| && result == Routed(subs, slices')
      ensures Reaches(goal, slices', [], ServeByDemand(demand, subs, remaining))
    {
      var best := Best(demand, subs);
      var n := Min(|events|, demand[best]);
      ServeOneMore(goal, slices, demand, subs, events);
      RoutedExtends(subs, slices, Slice(best, events[..n]));
      slices' := slices + [Slice(best, events[..n])];
      result := routed[best := routed[best] + events[..n]];
      remaining := events[n..];
      demand := demand[best := demand[best] - n];
    }
  }

  class BroadcastDispatcher {
    var demand: Table

    constructor ()
      ensures demand == map[]
    {
      demand := map[];
    }

    method Subscribe(s: SubId)
      modifies this
      ensures demand == old(demand)[s := 0]
    {
      demand := demand[s := 0];
    }

    method Cancel(s: SubId)
      modifies this
      ensures demand == old(demand) - {s}
    {
      demand := demand - {s};
    }

    /** For a known subscription and a non-negative count, returns the growth of the least demand. */
    method Ask(s: SubId, count: int) returns (growth: int)
      modifies this
      ensures demand == old(demand)[s := Get(old(demand), s) + count]
      ensures growth == Max(0, Least(demand) - Least(old(demand)))
      ensures s in old(demand) && 0 <= count ==> growth == Least(demand) - Least(old(demand))
    {
      var oldMin := MinOfValues(demand);
      LeastIsMinimum(demand);
      demand := demand[s := Get(demand, s) + count];
      var newMin := MinOfValues(demand);
      LeastIsMinimum(demand);
      growth := Max(0, newMin - oldMin);
    }

    method TotalPending() returns (pending: int)
      ensures pending == Least(demand)
    {
      pending := MinOfValues(demand);
    }

    method Dispatch(events: seq<Event>, subs: seq<SubId>)
      returns (leftover: seq<Event>, result: map<SubId, seq<Event>>)
      requires Distinct(subs)
      modifies this
      ensures var r := ServeByBroadcast(old(demand), subs, events);
              leftover == r.leftover && demand == r.demand && result == Routed(subs, r.slices)
    {
      if subs == [] {
        return events, map[];
      }
      ghost var was := demand;
      var minDem := LeastOf(demand, subs);
      var batch := PyTake(events, minDem);
      leftover := PyDrop(events, minDem);
      result := map[];
      for i := 0 to |subs|
        invariant SentTo(result, subs[..i], batch) && PaidBy(demand, was, subs[..i], |batch|)
      {
        SentToOneMore(result, demand, was, subs, i, batch);
        result := result[subs[i] := batch];
        demand := demand[subs[i] := Max(0, Get(demand, subs[i]) - |batch|)];
      }
      assert subs[..|subs|] == subs;
      SentToAll(result, demand, was, subs, events);
    }
  }

  /** `result` holds a copy of the batch for exactly `subs`. */
  ghost predicate SentTo(result: map<SubId, seq<Event>>, subs: seq<SubId>, batch: seq<Event>) {
    result.Keys == Elements(subs) && forall s :: s in result ==> result[s] == batch
  }

  /** Exactly `subs` have paid `n`, never going below zero. */
  ghost predicate PaidBy(t: Table, was: Table, subs: seq<SubId>, n: nat) {
    t.Keys == was.Keys + Elements(subs) &&
    forall s :: s in t ==> t[s] == if s in subs then Max(0, Get(was, s) - n) else was[s]
  }

  lemma SentToOneMore(result: map<SubId, seq<Event>>, t: Table, was: Table, subs: seq<SubId>, i: nat, batch: seq<Event>)
    requires i < |subs| && Distinct(subs)
    requires SentTo(result, subs[..i], batch) && PaidBy(t, was, subs[..i], |batch|)
    ensures SentTo(result[subs[i] := batch], subs[..i + 1], batch)
    ensures PaidBy(t[subs[i] := Max(0, Get(t, subs[i]) - |batch|)], was, subs[..i + 1], |batch|)
  {
    assert subs[..i + 1] == subs[..i] + [subs[i]];
    assert subs[i] !in subs[..i];
    SentToLast(result, subs[..i], subs[i], batch);
    PaidByLast(t, was, subs[..i], subs[i], |batch|);
  }

  lemma SentToLast(result: map<SubId, seq<Event>>, subs: seq<SubId>, s: SubId, batch: seq<Event>)
    requires SentTo(result, subs, batch)
    ensures SentTo(result[s := batch], subs + [s], batch)
  {
  }

  lemma PaidByLast(t: Table, was: Table, subs: seq<SubId>, s: SubId, n: nat)
    requires PaidBy(t, was, subs, n) && s !in subs
    ensures PaidBy(t[s := Max(0, Get(t, s) - n)], was, subs + [s], n)
  {
  }

  lemma SentIsRouted(result: map<SubId, seq<Event>>, subs: seq<SubId>, batch: seq<Event>, slices: seq<Slice>)
    requires Distinct(subs) && SentTo(result, subs, batch) && slices == Copies(subs, batch)
    ensures result == Routed(subs, slices)
  {
    forall s | s in subs ensures BatchFor(slices, s) == batch {
      CopiesGiveBatch(subs, batch, s);
    }
    assert result.Keys == Routed(subs, slices).Keys;
  }

  lemma PaidIsCharged(t: Table, was: Table, subs: seq<SubId>, n: nat)
    requires PaidBy(t, was, subs, n)
    ensures t == was + map s | s in subs :: Max(0, Get(was, s) - n)
  {
    var u := was + map s | s in subs :: Max(0, Get(was, s) - n);
    assert t.Keys == u.Keys;
    assert forall s :: s in t ==> t[s] == u[s];
  }

  lemma SentToAll(result: map<SubId, seq<Event>>, t: Table, was: Table, subs: seq<SubId>, events: seq<Event>)
    requires subs != [] && Distinct(subs)
    requires var batch := PyTake(events, LeastOf(was, subs));
             SentTo(result, subs, batch) && PaidBy(t, was, subs, |batch|)
    ensures var r := ServeByBroadcast(was, subs, events);
            result == Routed(subs, r.slices) && t == r.demand
  {
    var batch := PyTake(events, LeastOf(was, subs));
    SentIsRouted(result, subs, batch, Copies(subs, batch));
    PaidIsCharged(t, was, subs, |batch|);
  }

  class PartitionDispatcher {
    const hash: Event -> int
    var demand: Table
    var partitionMap: map<int, SubId>

    constructor (hash: Event -> int)
      ensures this.hash == hash && demand == map[] && partitionMap == map[]
    {
      this.hash := hash;
      demand := map[];
      partitionMap := map[];
    }

    /** Refuses a subscription without a partition; nothing has changed then. */
    method Subscribe(s: SubId, partition: Option<int>) returns (ok: bool)
      modifies this
      ensures ok == partition.Some?
      ensures ok ==> demand == old(demand)[s := 0] && partitionMap == old(partitionMap)[partition.value := s]
      ensures !ok ==> demand == old(demand) && partitionMap == old(partitionMap)
    {
      if partition.None? {
        return false;
      }
      partitionMap := partitionMap[partition.value := s];
      demand := demand[s := 0];
      ok := true;
    }

    method Cancel(s: SubId)
      modifies this
      ensures demand == old(demand) - {s}
      ensures partitionMap == map p | p in old(partitionMap) && old(partitionMap)[p] != s :: old(partitionMap)[p]
    {
      demand := demand - {s};
      partitionMap := map p | p in partitionMap && partitionMap[p] != s :: partitionMap[p];
    }

    method Ask(s: SubId, count: int) returns (growth: int)
      modifies this
      ensures demand == old(demand)[s := Get(old(demand), s) + count] && partitionMap == old(partitionMap)
      ensures growth == Total(demand) - Total(old(demand))
    {
      TotalUpdate(demand, s, Get(demand, s) + count);
      demand := demand[s := Get(demand, s) + count];
      growth := count;
    }

    method TotalPending() returns (pending: int)
      ensures pending == Total(demand)
    {
      pending := SumOfValues(demand);
    }

    method Dispatch(events: seq<Event>, subs: seq<SubId>)
      returns (leftover: seq<Event>, result: map<SubId, seq<Event>>)
      modifies this`demand
      ensures var r := ServeByPartition(old(demand), partitionMap, hash, subs, events);
              leftover == r.leftover && demand == r.demand && result == Routed(subs, r.slices)
    {
      ghost var goal := ServeByPartition(demand, partitionMap, hash, subs, events);
      ghost var slices: seq<Slice> := [];
      result := map s | s in subs :: [];
      leftover := [];
      for i := 0 to |events|
        invariant Reaches(goal, slices, leftover, ServeByPartition(demand, partitionMap, hash, subs, events[i..]))
        invariant result == Routed(subs, slices)
      {
        var event := events[i];
        assert events[i..][0] == event && events[i..][1..] == events[i + 1..];
        ghost var r := ServeByPartition(demand, partitionMap, hash, subs, events[i..]);
        var p := hash(event);
        if p !in partitionMap || partitionMap[p] !in subs {
          ReachesLeft(goal, slices, leftover, r,
                      ServeByPartition(demand, partitionMap, hash, subs, events[i + 1..]), event);
          leftover := leftover + [event];
        } else if Get(demand, partitionMap[p]) > 0 {
          var s := partitionMap[p];
          var paid := demand[s := Get(demand, s) - 1];
          ReachesSlice(goal, slices, leftover, r, ServeByPartition(paid, partitionMap, hash, subs, events[i + 1..]));
          RoutedExtends(subs, slices, Slice(s, [event]));
          slices := slices + [Slice(s, [event])];
          result := result[s := result[s] + [event]];
          demand := paid;
        } else {
          ReachesLeft(goal, slices, leftover, r,
                      ServeByPartition(demand, partitionMap, hash, subs, events[i + 1..]), event);
          leftover := leftover + [event];
        }
      }
      assert events[|events|..] == [];
      assert goal.slices == slices;
    }
  }
}
