/** The producer side of a stage as values: its subscribers, its dispatcher and its
    output buffer, with every message handler as a function. */
module Outlets {
  import opened Identifiers
  import opened Seqs
  import opened Wrappers

  import opened Dispatch
  import opened Tables

  /** The stage messages of `_messages.py`; `Subscribe` carries the partition option. */
  datatype Message =
    | Subscribe(sub: SubId, sender: Pid, partition: Option<int>)
    | SubscribeAck(sub: SubId)
    | Demand(sub: SubId, count: int)
    | Events(sub: SubId, batch: seq<Event>)
    | Cancel(sub: SubId)

  datatype Send = Send(to: Pid, msg: Message)

  datatype Policy = ByDemand | ByBroadcast | ByPartition(hash: Event -> int)

  /** `subs` is the key order of the `_producer_subs` dict, `peer` its values. */
  datatype Outlet = Outlet(
    policy: Policy,
    subs: seq<SubId>,
    peer: map<SubId, Pid>,
    demand: Table,
    partitionMap: map<int, SubId>,
    buffer: seq<Event>)

  /** What one handler does: the new outlet, the messages sent in order, and for the
      record the slices routed in serving order and the events newly produced. */
  datatype Effect = Effect(outlet: Outlet, sends: seq<Send>, slices: seq<Slice>, produced: seq<Event>)

  /** A handler either runs to its end or raises, which ends the stage. */
  datatype Outcome = Handled(effect: Effect) | Crashed(outlet: Outlet)

  function NewOutlet(policy: Policy): Outlet {
    Outlet(policy, [], map[], map[], map[], [])
  }

  function Nothing(o: Outlet): Effect {
    Effect(o, [], [], [])
  }

  function Then(first: Effect, second: Effect): Effect {
    Effect(second.outlet, first.sends + second.sends, first.slices + second.slices, first.produced + second.produced)
  }

  /** The dispatcher and the subscription dict always have the same keys. */
  ghost predicate Keyed(o: Outlet) {
    Distinct(o.subs) && o.peer.Keys == Elements(o.subs) && o.demand.Keys == Elements(o.subs)
  }

  ghost predicate Valid(o: Outlet) {
    Keyed(o) && NonNegative(o.demand)
  }

  /** `dispatcher.total_pending()` */
  ghost function Pending(o: Outlet): int {
    if o.policy.ByBroadcast? then Least(o.demand) else Total(o.demand)
  }

  /** `dispatcher.dispatch(events, subs)` */
  function Serve(o: Outlet, events: seq<Event>): Served {
    match o.policy
    case ByDemand => ServeByDemand(o.demand, o.subs, events)
    case ByBroadcast => ServeByBroadcast(o.demand, o.subs, events)
    case ByPartition(hash) => ServeByPartition(o.demand, o.partitionMap, hash, o.subs, events)
  }

  /** One `Events` message per subscriber with a non-empty batch, in dict order. */
  function SendsFor(subs: seq<SubId>, peer: map<SubId, Pid>, slices: seq<Slice>): seq<Send> {
    if subs == [] then []
    else
      var batch := BatchFor(slices, subs[0]);
      if batch != [] && subs[0] in peer
      then [Send(peer[subs[0]], Events(subs[0], batch))] + SendsFor(subs[1..], peer, slices)
      else SendsFor(subs[1..], peer, slices)
  }

  function DispatchEvents(o: Outlet, events: seq<Event>): Effect {
    if events == [] then Nothing(o)
    else if o.subs == [] then Nothing(o.(buffer := o.buffer + events))
    else
      var r := Serve(o, events);
      Effect(o.(demand := r.demand, buffer := o.buffer + r.leftover), SendsFor(o.subs, o.peer, r.slices), r.slices, [])
  }

  function Flush(o: Outlet): Effect {
    if o.buffer == [] then Nothing(o) else DispatchEvents(o.(buffer := []), o.buffer)
  }

  function Registered(o: Outlet, s: SubId, consumer: Pid): Outlet {
    o.(subs := if s in o.subs then o.subs else o.subs + [s], peer := o.peer[s := consumer])
  }

  predicate Refused(o: Outlet, partition: Option<int>) {
    o.policy.ByPartition? && partition.None?
  }

  /** Entered into the dict and the dispatcher. */
  function Subscribed(o: Outlet, s: SubId, consumer: Pid, partition: Option<int>): Outlet
    requires !Refused(o, partition)
  {
    var o1 := Registered(o, s, consumer);
    o1.(demand := o1.demand[s := 0],
        partitionMap := if o.policy.ByPartition? then o1.partitionMap[partition.value := s] else o1.partitionMap)
  }

  /** `_do_subscribe`. The acknowledgement is the one send that is not guarded: if the
      mailbox of the consumer is not `open`, it raises and ends the stage. */
  function DoSubscribe(o: Outlet, s: SubId, consumer: Pid, partition: Option<int>, open: bool): Outcome {
    if Refused(o, partition) then Crashed(Registered(o, s, consumer))
    else
      var o2 := Subscribed(o, s, consumer, partition);
      if open then Handled(Then(Effect(o2, [Send(consumer, SubscribeAck(s))], [], []), Flush(o2)))
      else Crashed(o2)
  }

  /** The loop `while total_pending() > 0`, where `batches` are the results of
      `handle_demand` in the order it is called; an empty result ends the loop. */
  ghost function Produce(o: Outlet, batches: seq<seq<Event>>): Effect
    decreases |batches|
  {
    if Pending(o) <= 0 || batches == [] || batches[0] == [] then Nothing(o)
    else
      var step := DispatchEvents(o, batches[0]).(produced := batches[0]);
      Then(step, Produce(step.outlet, batches[1..]))
  }

  function Asked(o: Outlet, s: SubId, count: int): Outlet {
    o.(demand := o.demand[s := Get(o.demand, s) + count])
  }

  ghost function DoDemand(o: Outlet, s: SubId, count: int, isProducer: bool, batches: seq<seq<Event>>): Effect {
    if s !in o.subs then Nothing(o)
    else
      var flushed := Flush(Asked(o, s, count));
      if isProducer then Then(flushed, Produce(flushed.outlet, batches)) else flushed
  }

  function Without(subs: seq<SubId>, s: SubId): seq<SubId> {
    if subs == [] then []
    else if subs[0] == s then Without(subs[1..], s)
    else [subs[0]] + Without(subs[1..], s)
  }

  function DoCancel(o: Outlet, s: SubId): Outlet {
    if s !in o.subs then o
    else o.(subs := Without(o.subs, s), peer := o.peer - {s}, demand := o.demand - {s},
            partitionMap := if o.policy.ByPartition?
                            then map p | p in o.partitionMap && o.partitionMap[p] != s :: o.partitionMap[p]
                            else o.partitionMap)
  }

  lemma {:induction false} WithoutElements(subs: seq<SubId>, s: SubId)
    requires Distinct(subs)
    ensures Distinct(Without(subs, s)) && Elements(Without(subs, s)) == Elements(subs) - {s}
  {
    if subs != [] {
      WithoutElements(subs[1..], s);
      var rest := Without(subs[1..], s);
      assert Elements(subs) == {subs[0]} + Elements(subs[1..]);
      assert forall x :: x in rest ==> x in Elements(rest);
      if subs[0] != s {
        assert Without(subs, s) == [subs[0]] + rest;
        assert subs[0] !in Elements(subs[1..]);
        assert Elements([subs[0]] + rest) == {subs[0]} + Elements(rest);
      } else {
        assert Without(subs, s) == rest;
        assert s !in Elements(subs[1..]);
      }
    }
  }

  // ---------------------------------------------------------------------
  // What routing means for each subscription, whatever the dispatcher
  // ---------------------------------------------------------------------

  lemma BroadcastAccounts(t: Table, subs: seq<SubId>, events: seq<Event>)
    requires Distinct(subs) && subs != [] && Elements(subs) == t.Keys && NonNegative(t)
    ensures var r := ServeByBroadcast(t, subs, events); Charged(t, subs, r.slices, r.demand)
  {
    var r := ServeByBroadcast(t, subs, events);
    var batch := PyTake(events, LeastOf(t, subs));
    BroadcastDispatchAgrees(t, subs, events);
    forall s
      ensures Get(r.demand, s) == Get(t, s) - |BatchFor(r.slices, s)|
      ensures 0 <= Get(t, s) ==> 0 <= Get(r.demand, s)
    {
      if s in t {
        assert s in Elements(subs);
        assert BatchFor(r.slices, s) == batch;
      } else {
        assert s !in Elements(subs);
        assert BatchFor(r.slices, s) == [];
      }
    }
  }

  lemma ServeAccounts(o: Outlet, events: seq<Event>)
    requires Valid(o) && o.subs != []
    ensures var r := Serve(o, events); Charged(o.demand, o.subs, r.slices, r.demand)
  {
    match o.policy
    case ByDemand => DemandDispatchAccounts(o.demand, o.subs, events);
    case ByBroadcast => BroadcastAccounts(o.demand, o.subs, events);
    case ByPartition(hash) => PartitionDispatchAccounts(o.demand, o.partitionMap, hash, o.subs, events);
  }

  lemma AccountsCompose(t0: Table, subs: seq<SubId>, a: seq<Slice>, t1: Table, b: seq<Slice>, t2: Table)
    requires Charged(t0, subs, a, t1) && Charged(t1, subs, b, t2)
    ensures Charged(t0, subs, a + b, t2)
  {
    forall s ensures |BatchFor(a + b, s)| == |BatchFor(a, s)| + |BatchFor(b, s)|
             ensures s !in subs ==> BatchFor(a + b, s) == []
    {
      BatchForConcat(a, b, s);
    }
  }

  /** The handlers keep the subscribers, so only demand and buffer move. */
  ghost predicate SameSubscribers(o: Outlet, o': Outlet) {
    o'.policy == o.policy && o'.subs == o.subs && o'.peer == o.peer && o'.partitionMap == o.partitionMap
  }

  lemma DispatchAccounts(o: Outlet, events: seq<Event>)
    requires Valid(o)
    ensures var e := DispatchEvents(o, events);
            SameSubscribers(o, e.outlet) && Valid(e.outlet) && Charged(o.demand, o.subs, e.slices, e.outlet.demand)
  {
    if events != [] && o.subs != [] {
      ServeAccounts(o, events);
      var e := DispatchEvents(o, events);
      assert forall s ::
        s in e.outlet.demand ==> 0 <= Get(o.demand, s) && e.outlet.demand[s] == Get(e.outlet.demand, s);
    }
  }

  lemma FlushAccounts(o: Outlet)
    requires Valid(o)
    ensures var e := Flush(o);
            SameSubscribers(o, e.outlet) && Valid(e.outlet) && Charged(o.demand, o.subs, e.slices, e.outlet.demand)
  {
    DispatchAccounts(o.(buffer := []), o.buffer);
  }

  lemma {:induction false} ProduceAccounts(o: Outlet, batches: seq<seq<Event>>)
    requires Valid(o)
    ensures var e := Produce(o, batches);
            SameSubscribers(o, e.outlet) && Valid(e.outlet) && Charged(o.demand, o.subs, e.slices, e.outlet.demand)
    decreases |batches|
  {
    if !(Pending(o) <= 0 || batches == [] || batches[0] == []) {
      var step := DispatchEvents(o, batches[0]);
      DispatchAccounts(o, batches[0]);
      ProduceAccounts(step.outlet, batches[1..]);
      AccountsCompose(o.demand, o.subs, step.slices, step.outlet.demand,
                      Produce(step.outlet, batches[1..]).slices, Produce(step.outlet, batches[1..]).outlet.demand);
    }
  }

  lemma DemandAccounts(o: Outlet, s: SubId, count: int, isProducer: bool, batches: seq<seq<Event>>)
    requires Valid(o) && s in o.subs && 0 <= count
    ensures Valid(Asked(o, s, count))
    ensures var e := DoDemand(o, s, count, isProducer, batches);
            && SameSubscribers(o, e.outlet) && Valid(e.outlet)
            && Charged(Asked(o, s, count).demand, o.subs, e.slices, e.outlet.demand)
  {
    var o1 := Asked(o, s, count);
    assert s in Elements(o.subs);
    assert o1.demand.Keys == o.demand.Keys;
    FlushAccounts(o1);
    var flushed := Flush(o1);
    if isProducer {
      ProduceAccounts(flushed.outlet, batches);
      AccountsCompose(o1.demand, o.subs, flushed.slices, flushed.outlet.demand,
                      Produce(flushed.outlet, batches).slices, Produce(flushed.outlet, batches).outlet.demand);
    }
  }

  lemma CancelValid(o: Outlet, s: SubId)
    requires Valid(o)
    ensures Valid(DoCancel(o, s))
    ensures forall x :: x != s ==> Get(DoCancel(o, s).demand, x) == Get(o.demand, x)
    ensures forall x :: x in DoCancel(o, s).subs <==> x in o.subs && x != s
  {
    if s in o.subs {
      WithoutElements(o.subs, s);
      assert forall x :: x in DoCancel(o, s).subs <==> x in Elements(DoCancel(o, s).subs);
      assert forall x :: x in o.subs <==> x in Elements(o.subs);
    }
  }

  lemma RegisteredValid(o: Outlet, s: SubId, consumer: Pid)
    requires Keyed(o)
    ensures var o1 := Registered(o, s, consumer);
            Distinct(o1.subs) && o1.peer.Keys == Elements(o1.subs) == o.demand.Keys + {s}
  {
    var o1 := Registered(o, s, consumer);
    if s !in o.subs {
      assert Elements(o.subs + [s]) == Elements(o.subs) + {s};
    } else {
      assert s in Elements(o.subs);
    }
  }

  /** Subscribing routes nothing to the newcomer: it starts with no demand. */
  lemma SubscribedValid(o: Outlet, s: SubId, consumer: Pid, partition: Option<int>)
    requires Valid(o) && !Refused(o, partition)
    ensures Valid(Subscribed(o, s, consumer, partition))
  {
    RegisteredValid(o, s, consumer);
  }

  lemma SubscribeAccounts(o: Outlet, s: SubId, consumer: Pid, partition: Option<int>)
    requires Valid(o) && DoSubscribe(o, s, consumer, partition, true).Handled?
    ensures var e := DoSubscribe(o, s, consumer, partition, true).effect;
            && Valid(e.outlet) && e.outlet.peer == o.peer[s := consumer]
            && e.outlet.subs == (if s in o.subs then o.subs else o.subs + [s])
            && Charged(o.demand[s := 0], e.outlet.subs, e.slices, e.outlet.demand)
            && BatchFor(e.slices, s) == [] && e.outlet.demand[s] == 0
  {
    var o2 := Subscribed(o, s, consumer, partition);
    SubscribedValid(o, s, consumer, partition);
    FlushAccounts(o2);
    NewcomerGetsNothing(o2, s);
    var e := DoSubscribe(o, s, consumer, partition, true).effect;
    assert e.slices == Flush(o2).slices && e.outlet == Flush(o2).outlet;
  }

  lemma NewcomerGetsNothing(o: Outlet, s: SubId)
    requires Valid(o) && s in o.demand && o.demand[s] == 0
    ensures var e := Flush(o); BatchFor(e.slices, s) == [] && s in e.outlet.demand && e.outlet.demand[s] == 0
  {
    FlushAccounts(o);
    var e := Flush(o);
    assert Get(e.outlet.demand, s) == 0 - |BatchFor(e.slices, s)|;
  }
}
