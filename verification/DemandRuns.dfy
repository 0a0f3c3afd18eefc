/** What a Demand makes a stage produce: a Producer calls `handle_demand` while there is demand,
    until it is met or nothing comes; any other stage produces nothing. And what subscribing
    makes it send: the acknowledgement alone. */
module DemandRuns {
  import opened Identifiers
  import opened Seqs
  import opened Wrappers

  import opened BroadcastRuns
  import opened Dispatch
  import opened OutletRuns
  import opened Outlets
  import opened Tables

  /** All events of a list of answers. */
  function Join(batches: seq<seq<Event>>): seq<Event> {
    if batches == [] then [] else batches[0] + Join(batches[1..])
  }

  /** The answer is not empty, and demand is pending when it is asked for. */
  ghost predicate AskedFor(o: Outlet, batches: seq<seq<Event>>, j: nat) {
    j < |batches| && batches[j] != [] && 0 < Pending(Produce(o, batches[..j]).outlet)
  }

  /** The first `k` answers were taken, each non-empty and each asked for while demand was
      pending; then it was met, or the next answer was empty, or the script ended. */
  ghost predicate Stops(o: Outlet, batches: seq<seq<Event>>, k: nat) {
    && k <= |batches|
    && (forall j :: 0 <= j < k ==> AskedFor(o, batches, j))
    && (Pending(Produce(o, batches).outlet) <= 0 || k == |batches| || batches[k] == [])
    && Produce(o, batches).produced == Join(batches[..k])
  }

  /** The loop over the first `j` answers, with one of them taken. */
  lemma PrefixOnce(o: Outlet, batches: seq<seq<Event>>, step: Effect, j: nat)
    requires 0 < Pending(o) && batches != [] && batches[0] != [] && 0 < j <= |batches|
    requires step == DispatchEvents(o, batches[0]).(produced := batches[0])
    ensures Produce(o, batches[..j]).outlet == Produce(step.outlet, batches[1..][..j - 1]).outlet
  {
    assert batches[..j][1..] == batches[1..][..j - 1];
    ProduceOnce(o, batches[..j], step);
  }

  lemma StopsLater(o: Outlet, batches: seq<seq<Event>>, step: Effect, k: nat)
    requires 0 < Pending(o) && batches != [] && batches[0] != []
    requires step == DispatchEvents(o, batches[0]).(produced := batches[0])
    requires Stops(step.outlet, batches[1..], k)
    ensures Stops(o, batches, k + 1)
  {
    var rest := batches[1..];
    forall j | 0 <= j < k + 1 ensures AskedFor(o, batches, j) {
      if j == 0 {
        assert batches[..0] == [];
      } else {
        PrefixOnce(o, batches, step, j);
        assert AskedFor(step.outlet, rest, j - 1) && rest[j - 1] == batches[j];
      }
    }
    ProduceOnce(o, batches, step);
    JoinOnce(batches, k);
  }

  lemma JoinOnce(batches: seq<seq<Event>>, k: nat)
    requires k < |batches|
    ensures Join(batches[..k + 1]) == batches[0] + Join(batches[1..][..k])
  {
    assert batches[..k + 1][1..] == batches[1..][..k];
  }

  lemma {:induction false} LoopStops(o: Outlet, batches: seq<seq<Event>>) returns (k: nat)
    ensures Stops(o, batches, k)
    decreases |batches|
  {
    if Pending(o) <= 0 || batches == [] || batches[0] == [] {
      k := 0;
      assert batches[..0] == [];
    } else {
      var step := DispatchEvents(o, batches[0]).(produced := batches[0]);
      var k1 := LoopStops(step.outlet, batches[1..]);
      k := k1 + 1;
      StopsLater(o, batches, step, k1);
    }
  }

  /** A Producer that takes a Demand first flushes its buffer; it then takes answers while
      demand is pending, no more and no fewer, and what it produces is exactly these. */
  lemma DemandIsProducedFor(o: Outlet, s: SubId, count: int, batches: seq<seq<Event>>) returns (k: nat)
    requires s in o.subs
    ensures var e := DoDemand(o, s, count, true, batches);
            && k <= |batches| && e.produced == Join(batches[..k])
            && (forall j :: 0 <= j < k ==>
                  batches[j] != [] && 0 < Pending(DoDemand(o, s, count, true, batches[..j]).outlet))
            && (Pending(e.outlet) <= 0 || k == |batches| || batches[k] == [])
  {
    var flushed := Flush(Asked(o, s, count));
    k := LoopStops(flushed.outlet, batches);
    forall j | 0 <= j < k
      ensures batches[j] != [] && 0 < Pending(DoDemand(o, s, count, true, batches[..j]).outlet)
    {
      assert AskedFor(flushed.outlet, batches, j);
      assert DoDemand(o, s, count, true, batches[..j]).outlet == Produce(flushed.outlet, batches[..j]).outlet;
    }
    Units(Produce(flushed.outlet, batches).produced);
  }

  /** A stage that is no Producer serves a Demand from its buffer alone. */
  lemma OthersProduceNothing(o: Outlet, s: SubId, count: int, batches: seq<seq<Event>>, other: seq<seq<Event>>)
    ensures DoDemand(o, s, count, false, batches).produced == []
    ensures DoDemand(o, s, count, false, batches) == DoDemand(o, s, count, false, other)
  {
  }

  lemma {:induction false} EnoughAnswers(o: Outlet, batches: seq<seq<Event>>)
    requires Valid(o) && !o.policy.ByPartition? && Pending(o) <= |batches|
    requires forall i :: 0 <= i < |batches| ==> batches[i] != []
    ensures Pending(Produce(o, batches).outlet) <= 0
    decreases |batches|
  {
    if 0 < Pending(o) {
      var step := DispatchEvents(o, batches[0]).(produced := batches[0]);
      ProductionLowersPending(o, batches[0]);
      ProduceOnce(o, batches, step);
      assert forall i :: 0 <= i < |batches| - 1 ==> batches[1..][i] == batches[i + 1];
      DispatchAccounts(o, batches[0]);
      EnoughAnswers(step.outlet, batches[1..]);
    }
  }

  lemma {:induction false} TotalMonotone(t: Table, u: Table)
    requires t.Keys == u.Keys && forall s :: s in t ==> u[s] <= t[s]
    ensures Total(u) <= Total(t)
    decreases |t|
  {
    if t != map[] {
      var s :| s in t;
      TotalWithout(t, s);
      TotalWithout(u, s);
      TotalMonotone(t - {s}, u - {s});
    } else {
      assert u == map[];
    }
  }

  lemma LeastMonotone(t: Table, u: Table)
    requires t.Keys == u.Keys && forall s :: s in t ==> u[s] <= t[s]
    ensures Least(u) <= Least(t)
  {
    LeastIsMinimum(t);
    LeastIsMinimum(u);
    if t != map[] {
      var s :| s in t && t[s] == Least(t);
      assert s in u && Least(u) <= u[s];
    } else {
      assert u == map[];
    }
  }

  /** Flushing never adds to what is pending. */
  lemma FlushLowersPending(o: Outlet)
    requires Valid(o)
    ensures Pending(Flush(o).outlet) <= Pending(o)
  {
    FlushAccounts(o);
    var u := Flush(o).outlet.demand;
    forall s | s in o.demand ensures s in u && u[s] <= o.demand[s] {
      assert Get(u, s) <= Get(o.demand, s);
    }
    assert u.Keys == o.demand.Keys;
    TotalMonotone(o.demand, u);
    LeastMonotone(o.demand, u);
  }

  /** Under the demand and broadcast dispatchers a Producer whose callback always answers has
      met all demand when it is done, after at most as many calls as there was demand. */
  lemma DemandIsMet(o: Outlet, s: SubId, count: int, batches: seq<seq<Event>>)
    requires Valid(o) && !o.policy.ByPartition? && s in o.subs && 0 <= count
    requires Pending(Asked(o, s, count)) <= |batches|
    requires forall i :: 0 <= i < |batches| ==> batches[i] != []
    ensures Pending(DoDemand(o, s, count, true, batches).outlet) <= 0
  {
    var o1 := Asked(o, s, count);
    DemandAccounts(o, s, count, false, []);
    FlushAccounts(o1);
    FlushLowersPending(o1);
    EnoughAnswers(Flush(o1).outlet, batches);
  }

  // ---------------------------------------------------------------------
  // Subscribing
  // ---------------------------------------------------------------------

  /** Nothing that waits can go to anybody but a newcomer. */
  ghost predicate Blocked(o: Outlet) {
    match o.policy
    case ByDemand => Clear(o)
    case ByBroadcast => true
    case ByPartition(hash) =>
      forall i :: 0 <= i < |o.buffer| ==> !Takes(o.demand, o.partitionMap, o.subs, hash(o.buffer[i]))
  }

  lemma {:induction false} NothingRouted(t: Table, pmap: map<int, SubId>, hash: Event -> int, subs: seq<SubId>,
                                         events: seq<Event>)
    requires forall i :: 0 <= i < |events| ==> !Takes(t, pmap, subs, hash(events[i]))
    ensures ServeByPartition(t, pmap, hash, subs, events) == Served([], events, t)
  {
    if events != [] {
      assert forall i :: 0 <= i < |events| - 1 ==> events[1..][i] == events[i + 1];
      NothingRouted(t, pmap, hash, subs, events[1..]);
      assert events == [events[0]] + events[1..];
    }
  }

  lemma {:induction false} NothingSent(subs: seq<SubId>, peer: map<SubId, Pid>, slices: seq<Slice>)
    requires forall s :: BatchFor(slices, s) == []
    ensures SendsFor(subs, peer, slices) == []
  {
    if subs != [] {
      NothingSent(subs[1..], peer, slices);
    }
  }

  /** A subscriber without demand, and nothing for the others: flushing does nothing. */
  lemma FlushIsIdle(o: Outlet, s: SubId)
    requires Valid(o) && s in o.subs && s in o.demand && o.demand[s] == 0 && Blocked(o)
    ensures Flush(o).outlet == o && Flush(o).sends == []
  {
    if o.buffer != [] {
      var o1 := o.(buffer := []);
      var e := DispatchEvents(o1, o.buffer);
      match o.policy
      case ByDemand =>
        assert ServeByDemand(o.demand, o.subs, o.buffer) == Served([], o.buffer, o.demand);
        NothingSent(o.subs, o.peer, []);
        Units(o.buffer);
      case ByBroadcast =>
        LeastIsMinimum(o.demand);
        forall x ensures BatchFor(e.slices, x) == [] {
          EverythingWaits(o1, o.buffer, x);
        }
        NothingSent(o.subs, o.peer, e.slices);
        EverythingWaits(o1, o.buffer, s);
        Units(o.buffer);
      case ByPartition(hash) =>
        NothingRouted(o.demand, o.partitionMap, hash, o.subs, o.buffer);
        NothingSent(o.subs, o.peer, []);
        Units(o.buffer);
    }
  }

  lemma {:induction false} InPartition(hash: Event -> int, events: seq<Event>, i: nat)
    requires i < |events|
    ensures OfPartition(hash, hash(events[i]), events) != []
  {
    if i > 0 {
      InPartition(hash, events[1..], i - 1);
    }
  }

  lemma RunIsBlocked(policy: Policy, ops: seq<Op>)
    requires Sensible(ops)
    ensures var o := Run(Start(policy), ops).outlet; Valid(o) && o.policy == policy && Blocked(o)
  {
    var o := Run(Start(policy), ops).outlet;
    TableMatchesSubscribers(Start(policy), ops);
    PolicyStays(Start(policy), ops);
    match policy
    case ByDemand => DemandFifo(Start(ByDemand), ops);
    case ByBroadcast =>
    case ByPartition(hash) =>
      forall i | 0 <= i < |o.buffer| ensures !Takes(o.demand, o.partitionMap, o.subs, hash(o.buffer[i])) {
        PartitionFifoFromStart(hash, ops, hash(o.buffer[i]));
        InPartition(hash, o.buffer, i);
      }
  }

  lemma {:induction false} PolicyStays(t: Track, ops: seq<Op>)
    ensures Run(t, ops).outlet.policy == t.outlet.policy
    decreases |ops|
  {
    if ops != [] && Step(t, ops[0]).Some? {
      if ops[0].DemandOp? {
        ProduceKeepsSubscribers(Flush(Asked(t.outlet, ops[0].sub, ops[0].count)).outlet, ops[0].batches);
      }
      PolicyStays(Step(t, ops[0]).value, ops[1..]);
    }
  }

  lemma SubscribedIsBlocked(o: Outlet, s: SubId, consumer: Pid, partition: Option<int>)
    requires Valid(o) && Blocked(o) && !Refused(o, partition)
    ensures Blocked(Subscribed(o, s, consumer, partition))
  {
    var o2 := Subscribed(o, s, consumer, partition);
    forall x ensures Get(o2.demand, x) == if x == s then 0 else Get(o.demand, x) {
    }
    forall x | x in o2.subs && x != s ensures x in o.subs {
    }
  }

  /** In every reachable state and under every dispatcher, a new subscription is answered by
      its SubscribeAck and nothing else: what waits in the buffer cannot go to the newcomer,
      who has no demand yet, and could not go to anybody else before, so flushing it then
      does nothing. */
  lemma SubscribingOnlyAcknowledges(policy: Policy, ops: seq<Op>, s: SubId, consumer: Pid, partition: Option<int>)
    requires Sensible(ops) && !Refused(Run(Start(policy), ops).outlet, partition)
    ensures var o := Run(Start(policy), ops).outlet;
            var answer := DoSubscribe(o, s, consumer, partition, true);
            && answer.Handled? && answer.effect.sends == [Send(consumer, SubscribeAck(s))]
            && answer.effect.outlet.buffer == o.buffer
            && answer.effect.outlet.demand == o.demand[s := 0]
  {
    var o := Run(Start(policy), ops).outlet;
    RunIsBlocked(policy, ops);
    SubscribedIsBlocked(o, s, consumer, partition);
    SubscribedValid(o, s, consumer, partition);
    FlushIsIdle(Subscribed(o, s, consumer, partition), s);
  }
}
