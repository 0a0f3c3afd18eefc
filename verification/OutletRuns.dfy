/** Whole runs of a producing stage: FIFO under the demand dispatcher, FIFO per
    partition under the partition dispatcher, agreement under the broadcast
    dispatcher, and when the demand loop ends. */
module OutletRuns {
  import opened Identifiers
  import opened Seqs
  import opened Wrappers

  import opened Dispatch
  import opened Outlets
  import opened Tables

  /** The messages a producing stage handles, those of consumers that can be told, and `DispatchOp` for the output of
      a middle stage's `handle_events`. */
  datatype Op =
    | SubscribeOp(sub: SubId, consumer: Pid, partition: Option<int>)
    | DemandOp(sub: SubId, count: int, isProducer: bool, batches: seq<seq<Event>>)
    | DispatchOp(events: seq<Event>)
    | CancelOp(sub: SubId)

  /** A stage with its history: everything produced, every slice routed, and how
      many slices had been routed when each subscription was made. */
  datatype Track = Track(outlet: Outlet, produced: seq<Event>, slices: seq<Slice>, since: map<SubId, nat>)

  function Start(policy: Policy): Track {
    Track(NewOutlet(policy), [], [], map[])
  }

  function Record(t: Track, e: Effect): Track {
    t.(outlet := e.outlet, produced := t.produced + e.produced, slices := t.slices + e.slices)
  }

  /** One handled message; a handler that raises ends the run. */
  ghost function Step(t: Track, op: Op): Option<Track> {
    match op
    case SubscribeOp(s, consumer, partition) =>
      (match DoSubscribe(t.outlet, s, consumer, partition, true)
       case Crashed(_) => None
       case Handled(e) => Some(Record(t.(since := t.since[s := |t.slices|]), e)))
    case DemandOp(s, count, isProducer, batches) => Some(Record(t, DoDemand(t.outlet, s, count, isProducer, batches)))
    case DispatchOp(events) => Some(Record(t, DispatchEvents(t.outlet, events).(produced := events)))
    case CancelOp(s) => Some(t.(outlet := DoCancel(t.outlet, s)))
  }

  ghost function Run(t: Track, ops: seq<Op>): Track
    decreases |ops|
  {
    if ops == [] then t
    else
      match Step(t, ops[0])
      case None => t
      case Some(t') => Run(t', ops[1..])
  }

  // ---------------------------------------------------------------------
  // DemandDispatcher: one FIFO
  // ---------------------------------------------------------------------

  /** Events wait in the buffer only while nobody has demand. */
  ghost predicate Clear(o: Outlet) {
    o.buffer != [] ==> !AnyPositive(o.demand, o.subs)
  }

  ghost predicate Fifo(t: Track) {
    t.outlet.policy.ByDemand? && Clear(t.outlet) && Flatten(t.slices) + t.outlet.buffer == t.produced
  }

  /** From outlet `o`, the effect routes `input` in order up to the new buffer. */
  ghost predicate InOrder(e: Effect, input: seq<Event>) {
    e.outlet.policy.ByDemand? && Flatten(e.slices) + e.outlet.buffer == input && Clear(e.outlet)
  }

  lemma ServedInOrder(o: Outlet, events: seq<Event>, r: Served, e: Effect)
    requires o.policy.ByDemand? && o.buffer == [] && Flatten(r.slices) + r.leftover == events
    requires r.leftover != [] ==> forall s :: s in o.subs ==> Get(r.demand, s) <= 0
    requires e.outlet == o.(demand := r.demand, buffer := o.buffer + r.leftover) && e.slices == r.slices
    ensures InOrder(e, events)
  {
    Units(r.leftover);
  }

  lemma DispatchFresh(o: Outlet, events: seq<Event>)
    requires o.policy.ByDemand? && o.buffer == []
    ensures InOrder(DispatchEvents(o, events), events)
  {
    if events != [] && o.subs != [] {
      DemandDispatchCutsInput(o.demand, o.subs, events);
      DemandDispatchAccounts(o.demand, o.subs, events);
      ServedInOrder(o, events, Serve(o, events), DispatchEvents(o, events));
    }
  }

  lemma DispatchBehind(o: Outlet, events: seq<Event>)
    requires o.policy.ByDemand? && o.buffer != [] && Clear(o)
    ensures InOrder(DispatchEvents(o, events), o.buffer + events)
  {
    if events != [] && o.subs != [] {
      assert Serve(o, events).slices == [];
    } else {
      Units(o.buffer);
    }
  }

  lemma DispatchInOrder(o: Outlet, events: seq<Event>)
    requires o.policy.ByDemand? && Clear(o)
    ensures InOrder(DispatchEvents(o, events), o.buffer + events)
  {
    Units(events);
    if o.buffer == [] {
      DispatchFresh(o, events);
    } else {
      DispatchBehind(o, events);
    }
  }

  lemma FlushInOrder(o: Outlet)
    requires o.policy.ByDemand?
    ensures InOrder(Flush(o), o.buffer)
  {
    DispatchInOrder(o.(buffer := []), o.buffer);
    Units(o.buffer);
  }

  lemma ThenInOrder(e: Effect, f: Effect, input: seq<Event>, more: seq<Event>)
    requires InOrder(e, input) && InOrder(f, e.outlet.buffer + more)
    ensures InOrder(Then(e, f), input + more)
  {
    FlattenConcat(e.slices, f.slices);
    Assoc(Flatten(e.slices), Flatten(f.slices), f.outlet.buffer);
    Assoc(Flatten(e.slices), e.outlet.buffer, more);
  }

  lemma {:induction false} ProduceInOrder(o: Outlet, batches: seq<seq<Event>>)
    requires o.policy.ByDemand? && Clear(o)
    ensures InOrder(Produce(o, batches), o.buffer + Produce(o, batches).produced)
    decreases |batches|
  {
    Units(o.buffer);
    if !(Pending(o) <= 0 || batches == [] || batches[0] == []) {
      var step := DispatchEvents(o, batches[0]).(produced := batches[0]);
      DispatchInOrder(o, batches[0]);
      var rest := Produce(step.outlet, batches[1..]);
      ProduceInOrder(step.outlet, batches[1..]);
      ThenInOrder(step, rest, o.buffer + batches[0], rest.produced);
      Assoc(o.buffer, batches[0], rest.produced);
    }
  }

  lemma RecordFifo(t: Track, e: Effect)
    requires Fifo(t) && InOrder(e, t.outlet.buffer + e.produced)
    ensures Fifo(Record(t, e))
  {
    FlattenConcat(t.slices, e.slices);
    Assoc(Flatten(t.slices), Flatten(e.slices), e.outlet.buffer);
    Assoc(Flatten(t.slices), t.outlet.buffer, e.produced);
  }

  lemma SubscribeInOrder(o: Outlet, s: SubId, consumer: Pid, partition: Option<int>)
    requires o.policy.ByDemand? && Clear(o)
    ensures DoSubscribe(o, s, consumer, partition, true).Handled?
    ensures var e := DoSubscribe(o, s, consumer, partition, true).effect; InOrder(e, o.buffer) && e.produced == []
  {
    var o2 := Subscribed(o, s, consumer, partition);
    FlushInOrder(o2);
    Units(Flush(o2).slices);
  }

  lemma SubscribeFifo(t: Track, s: SubId, consumer: Pid, partition: Option<int>)
    requires Fifo(t) && Step(t, SubscribeOp(s, consumer, partition)).Some?
    ensures Fifo(Step(t, SubscribeOp(s, consumer, partition)).value)
  {
    Units(t.outlet.buffer);
    SubscribeInOrder(t.outlet, s, consumer, partition);
    RecordFifo(t.(since := t.since[s := |t.slices|]), DoSubscribe(t.outlet, s, consumer, partition, true).effect);
  }

  lemma ThenProduceInOrder(o: Outlet, flushed: Effect, batches: seq<seq<Event>>)
    requires InOrder(flushed, o.buffer) && flushed.produced == []
    ensures var e := Then(flushed, Produce(flushed.outlet, batches)); InOrder(e, o.buffer + e.produced)
  {
    var produced := Produce(flushed.outlet, batches);
    ProduceInOrder(flushed.outlet, batches);
    ThenInOrder(flushed, produced, o.buffer, produced.produced);
    Units(produced.produced);
  }

  lemma DemandInOrder(o: Outlet, s: SubId, count: int, isProducer: bool, batches: seq<seq<Event>>)
    requires o.policy.ByDemand? && Clear(o)
    ensures var e := DoDemand(o, s, count, isProducer, batches); InOrder(e, o.buffer + e.produced)
  {
    Units(o.buffer);
    if s in o.subs {
      var flushed := Flush(Asked(o, s, count));
      assert InOrder(flushed, o.buffer) by { FlushInOrder(Asked(o, s, count)); }
      if isProducer {
        ThenProduceInOrder(o, flushed, batches);
      }
    }
  }

  lemma StepFifo(t: Track, op: Op)
    requires Fifo(t) && Step(t, op).Some? && Distinct(t.outlet.subs)
    ensures Fifo(Step(t, op).value)
  {
    var o := t.outlet;
    match op
    case SubscribeOp(s, consumer, partition) => SubscribeFifo(t, s, consumer, partition);
    case DemandOp(s, count, isProducer, batches) =>
      DemandInOrder(o, s, count, isProducer, batches);
      RecordFifo(t, DoDemand(o, s, count, isProducer, batches));
    case DispatchOp(events) =>
      DispatchInOrder(o, events);
      RecordFifo(t, DispatchEvents(o, events).(produced := events));
    case CancelOp(s) =>
      CancelClear(o, s);
  }

  lemma CancelClear(o: Outlet, s: SubId)
    requires Clear(o) && Distinct(o.subs)
    ensures Clear(DoCancel(o, s))
  {
    WithoutElements(o.subs, s);
    var o' := DoCancel(o, s);
    if s in o.subs && AnyPositive(o'.demand, o'.subs) {
      var x :| x in o'.subs && Get(o'.demand, x) > 0;
      assert x in Elements(o'.subs);
      assert x in o.subs && Get(o.demand, x) > 0;
    }
  }

  lemma StepKeepsDistinct(t: Track, op: Op)
    requires Distinct(t.outlet.subs) && Step(t, op).Some?
    ensures Distinct(Step(t, op).value.outlet.subs) && Step(t, op).value.outlet.policy == t.outlet.policy
  {
    match op
    case SubscribeOp(s, consumer, partition) =>
    case DemandOp(s, count, isProducer, batches) =>
      ProduceKeepsSubscribers(Flush(Asked(t.outlet, s, count)).outlet, batches);
    case DispatchOp(events) =>
    case CancelOp(s) => WithoutElements(t.outlet.subs, s);
  }

  lemma {:induction false} ProduceKeepsSubscribers(o: Outlet, batches: seq<seq<Event>>)
    ensures SameSubscribers(o, Produce(o, batches).outlet)
    decreases |batches|
  {
    if !(Pending(o) <= 0 || batches == [] || batches[0] == []) {
      ProduceKeepsSubscribers(DispatchEvents(o, batches[0]).outlet, batches[1..]);
    }
  }

  /** Over every run of subscribes, demands of any size, middle-stage output and
      cancels: everything produced is everything routed, in serving order, followed
      by the buffer; and events wait only while no subscriber has demand. */
  lemma {:induction false} DemandFifo(t: Track, ops: seq<Op>)
    requires Fifo(t) && Distinct(t.outlet.subs)
    ensures Fifo(Run(t, ops)) && Distinct(Run(t, ops).outlet.subs)
    decreases |ops|
  {
    if ops != [] && Step(t, ops[0]).Some? {
      StepFifo(t, ops[0]);
      StepKeepsDistinct(t, ops[0]);
      DemandFifo(Step(t, ops[0]).value, ops[1..]);
    }
  }

  /** Consumers only ask for positive counts. */
  ghost predicate Sensible(ops: seq<Op>) {
    forall i :: 0 <= i < |ops| && ops[i].DemandOp? ==> 0 <= ops[i].count
  }

  lemma StepValid(t: Track, op: Op)
    requires Valid(t.outlet) && Step(t, op).Some? && (op.DemandOp? ==> 0 <= op.count)
    ensures Valid(Step(t, op).value.outlet)
  {
    match op
    case SubscribeOp(s, consumer, partition) => SubscribeAccounts(t.outlet, s, consumer, partition);
    case DemandOp(s, count, isProducer, batches) =>
      if s in t.outlet.subs {
        DemandAccounts(t.outlet, s, count, isProducer, batches);
      }
    case DispatchOp(events) => DispatchAccounts(t.outlet, events);
    case CancelOp(s) => CancelValid(t.outlet, s);
  }

  /** Over every run the dispatcher's table is keyed by exactly the live subscriptions
      and never holds a negative demand. */
  lemma {:induction false} TableMatchesSubscribers(t: Track, ops: seq<Op>)
    requires Valid(t.outlet) && Sensible(ops)
    ensures Valid(Run(t, ops).outlet)
    decreases |ops|
  {
    if ops != [] && Step(t, ops[0]).Some? {
      StepValid(t, ops[0]);
      TableMatchesSubscribers(Step(t, ops[0]).value, ops[1..]);
    }
  }

  /** From the first message on: FIFO holds, and a non-empty buffer means the total pending demand is 0. */
  lemma DemandFifoFromStart(ops: seq<Op>)
    requires Sensible(ops)
    ensures var t := Run(Start(ByDemand), ops);
            && Flatten(t.slices) + t.outlet.buffer == t.produced
            && (t.outlet.buffer != [] ==> Pending(t.outlet) == 0)
  {
    var t := Run(Start(ByDemand), ops);
    DemandFifo(Start(ByDemand), ops);
    TableMatchesSubscribers(Start(ByDemand), ops);
    if t.outlet.buffer != [] {
      ServableBounds(t.outlet.demand, t.outlet.subs);
      ServableIsTotal(t.outlet.demand, t.outlet.subs);
    }
  }

  // ---------------------------------------------------------------------
  // PartitionDispatcher: one FIFO per partition
  // ---------------------------------------------------------------------

  /** Events of partition `p` wait only while nobody can take events of `p`. */
  ghost predicate ClearFor(o: Outlet, p: int) {
    o.policy.ByPartition? &&
    (OfPartition(o.policy.hash, p, o.buffer) != [] ==> !Takes(o.demand, o.partitionMap, o.subs, p))
  }

  ghost predicate PartitionFifo(t: Track, p: int) {
    && ClearFor(t.outlet, p)
    && var hash := t.outlet.policy.hash;
       OfPartition(hash, p, Flatten(t.slices)) + OfPartition(hash, p, t.outlet.buffer)
         == OfPartition(hash, p, t.produced)
  }

  ghost predicate InOrderFor(o: Outlet, e: Effect, input: seq<Event>, p: int) {
    && o.policy.ByPartition? && e.outlet.policy == o.policy && ClearFor(e.outlet, p)
    && OfPartition(o.policy.hash, p, Flatten(e.slices)) + OfPartition(o.policy.hash, p, e.outlet.buffer)
       == OfPartition(o.policy.hash, p, input)
  }

  lemma DispatchInOrderFor(o: Outlet, events: seq<Event>, p: int)
    requires ClearFor(o, p)
    ensures InOrderFor(o, DispatchEvents(o, events), o.buffer + events, p)
  {
    if events == [] {
      Units(o.buffer);
    } else if o.subs != [] {
      ServeInOrderFor(o, events, p);
    }
  }

  lemma ServeInOrderFor(o: Outlet, events: seq<Event>, p: int)
    requires ClearFor(o, p)
    ensures var r := Serve(o, events); var hash := o.policy.hash;
            && OfPartition(hash, p, Flatten(r.slices)) + OfPartition(hash, p, o.buffer + r.leftover)
               == OfPartition(hash, p, o.buffer + events)
            && (OfPartition(hash, p, o.buffer + r.leftover) != [] ==> !Takes(r.demand, o.partitionMap, o.subs, p))
  {
    var r, hash := Serve(o, events), o.policy.hash;
    var routed := OfPartition(hash, p, Flatten(r.slices));
    PartitionDispatchCutsPartition(o.demand, o.partitionMap, hash, o.subs, events, p);
    OfPartitionConcat(hash, p, o.buffer, events);
    OfPartitionConcat(hash, p, o.buffer, r.leftover);
    if OfPartition(hash, p, o.buffer) != [] {
      PartitionClosed(o.demand, o.partitionMap, hash, o.subs, events, p);
      assert routed == [];
    }
  }

  lemma FlushInOrderFor(o: Outlet, p: int)
    requires o.policy.ByPartition?
    ensures InOrderFor(o, Flush(o), o.buffer, p)
  {
    DispatchInOrderFor(o.(buffer := []), o.buffer, p);
    Units(o.buffer);
  }

  lemma ThenInOrderFor(o: Outlet, e: Effect, f: Effect, input: seq<Event>, more: seq<Event>, p: int)
    requires InOrderFor(o, e, input, p) && InOrderFor(e.outlet, f, e.outlet.buffer + more, p)
    ensures InOrderFor(o, Then(e, f), input + more, p)
  {
    var hash := o.policy.hash;
    FlattenConcat(e.slices, f.slices);
    OfPartitionConcat(hash, p, Flatten(e.slices), Flatten(f.slices));
    OfPartitionConcat(hash, p, e.outlet.buffer, more);
    OfPartitionConcat(hash, p, input, more);
    Regroup(OfPartition(hash, p, Flatten(e.slices)), OfPartition(hash, p, Flatten(f.slices)),
            OfPartition(hash, p, f.outlet.buffer), OfPartition(hash, p, e.outlet.buffer),
            OfPartition(hash, p, more));
  }

  lemma {:induction false} ProduceInOrderFor(o: Outlet, batches: seq<seq<Event>>, p: int)
    requires ClearFor(o, p)
    ensures InOrderFor(o, Produce(o, batches), o.buffer + Produce(o, batches).produced, p)
    decreases |batches|
  {
    Units(o.buffer);
    if !(Pending(o) <= 0 || batches == [] || batches[0] == []) {
      var step := DispatchEvents(o, batches[0]).(produced := batches[0]);
      DispatchInOrderFor(o, batches[0], p);
      var rest := Produce(step.outlet, batches[1..]);
      ProduceInOrderFor(step.outlet, batches[1..], p);
      ThenInOrderFor(o, step, rest, o.buffer + batches[0], rest.produced, p);
      Assoc(o.buffer, batches[0], rest.produced);
    }
  }

  lemma RecordPartitionFifo(t: Track, e: Effect, p: int)
    requires PartitionFifo(t, p) && InOrderFor(t.outlet, e, t.outlet.buffer + e.produced, p)
    ensures PartitionFifo(Record(t, e), p)
  {
    var hash := t.outlet.policy.hash;
    FlattenConcat(t.slices, e.slices);
    OfPartitionConcat(hash, p, Flatten(t.slices), Flatten(e.slices));
    OfPartitionConcat(hash, p, t.outlet.buffer, e.produced);
    OfPartitionConcat(hash, p, t.produced, e.produced);
    Regroup(OfPartition(hash, p, Flatten(t.slices)), OfPartition(hash, p, Flatten(e.slices)),
            OfPartition(hash, p, e.outlet.buffer), OfPartition(hash, p, t.outlet.buffer),
            OfPartition(hash, p, e.produced));
  }

  lemma Regroup(past: seq<Event>, routed: seq<Event>, left: seq<Event>, waiting: seq<Event>, more: seq<Event>)
    requires routed + left == waiting + more
    ensures past + routed + left == past + waiting + more
  {
    Assoc(past, routed, left);
    Assoc(past, waiting, more);
  }

  lemma FlushedInOrderFor(o: Outlet, s: SubId, count: int, p: int)
    requires ClearFor(o, p) && s in o.subs
    ensures InOrderFor(o, Flush(Asked(o, s, count)), o.buffer, p)
  {
    FlushInOrderFor(Asked(o, s, count), p);
  }

  lemma NothingInOrderFor(o: Outlet, p: int)
    requires ClearFor(o, p)
    ensures InOrderFor(o, Nothing(o), o.buffer, p)
  {
  }

  lemma DemandInOrderFor(o: Outlet, s: SubId, count: int, isProducer: bool, batches: seq<seq<Event>>, p: int)
    requires ClearFor(o, p)
    ensures var e := DoDemand(o, s, count, isProducer, batches); InOrderFor(o, e, o.buffer + e.produced, p)
  {
    Units(o.buffer);
    if s !in o.subs {
      NothingInOrderFor(o, p);
    } else {
      FlushedInOrderFor(o, s, count, p);
      if isProducer {
        ThenProduceInOrderFor(o, Flush(Asked(o, s, count)), batches, p);
      }
    }
  }

  lemma ThenProduceInOrderFor(o: Outlet, flushed: Effect, batches: seq<seq<Event>>, p: int)
    requires InOrderFor(o, flushed, o.buffer, p) && flushed.produced == []
    ensures var e := Then(flushed, Produce(flushed.outlet, batches)); InOrderFor(o, e, o.buffer + e.produced, p)
  {
    var produced := Produce(flushed.outlet, batches);
    ProduceInOrderFor(flushed.outlet, batches, p);
    ThenInOrderFor(o, flushed, produced, o.buffer, produced.produced, p);
    Units(produced.produced);
  }

  lemma SubscribePartitionFifo(t: Track, s: SubId, consumer: Pid, partition: Option<int>, p: int)
    requires PartitionFifo(t, p) && Step(t, SubscribeOp(s, consumer, partition)).Some?
    ensures PartitionFifo(Step(t, SubscribeOp(s, consumer, partition)).value, p)
  {
    var o := t.outlet;
    Units(o.buffer);
    var o2 := Subscribed(o, s, consumer, partition);
    FlushInOrderFor(o2, p);
    var e := DoSubscribe(o, s, consumer, partition, true).effect;
    assert e.slices == Flush(o2).slices && e.produced == [];
    RecordPartitionFifo(t.(since := t.since[s := |t.slices|]), e, p);
  }

  lemma CancelPartitionFifo(t: Track, s: SubId, p: int)
    requires PartitionFifo(t, p) && Distinct(t.outlet.subs)
    ensures PartitionFifo(Step(t, CancelOp(s)).value, p)
  {
    var o := t.outlet;
    WithoutElements(o.subs, s);
    var o' := DoCancel(o, s);
    if s in o.subs && Takes(o'.demand, o'.partitionMap, o'.subs, p) {
      assert o'.partitionMap[p] in Elements(o'.subs);
      assert Takes(o.demand, o.partitionMap, o.subs, p);
    }
  }

  lemma StepPartitionFifo(t: Track, op: Op, p: int)
    requires PartitionFifo(t, p) && Step(t, op).Some? && Distinct(t.outlet.subs)
    ensures PartitionFifo(Step(t, op).value, p)
  {
    var o := t.outlet;
    match op
    case SubscribeOp(s, consumer, partition) => SubscribePartitionFifo(t, s, consumer, partition, p);
    case DemandOp(s, count, isProducer, batches) =>
      DemandInOrderFor(o, s, count, isProducer, batches, p);
      RecordPartitionFifo(t, DoDemand(o, s, count, isProducer, batches), p);
    case DispatchOp(events) =>
      DispatchInOrderFor(o, events, p);
      RecordPartitionFifo(t, DispatchEvents(o, events).(produced := events), p);
    case CancelOp(s) => CancelPartitionFifo(t, s, p);
  }

  /** For every partition and every run with subscribes, re-mapped partitions and
      cancels: the events produced for it are those routed for it followed by those
      buffered, and an event is buffered only while nobody can take it. */
  lemma {:induction false} PartitionFifoOverRuns(t: Track, ops: seq<Op>, p: int)
    requires PartitionFifo(t, p) && Distinct(t.outlet.subs)
    ensures PartitionFifo(Run(t, ops), p) && Run(t, ops).outlet.policy == t.outlet.policy
    decreases |ops|
  {
    if ops != [] && Step(t, ops[0]).Some? {
      StepPartitionFifo(t, ops[0], p);
      StepKeepsDistinct(t, ops[0]);
      PartitionFifoOverRuns(Step(t, ops[0]).value, ops[1..], p);
    }
  }

  /** From the first message on. */
  lemma PartitionFifoFromStart(hash: Event -> int, ops: seq<Op>, p: int)
    ensures var t := Run(Start(ByPartition(hash)), ops);
            && OfPartition(hash, p, Flatten(t.slices)) + OfPartition(hash, p, t.outlet.buffer)
                 == OfPartition(hash, p, t.produced)
            && (OfPartition(hash, p, t.outlet.buffer) != [] ==>
                 !Takes(t.outlet.demand, t.outlet.partitionMap, t.outlet.subs, p))
  {
    PartitionFifoOverRuns(Start(ByPartition(hash)), ops, p);
  }

  // ---------------------------------------------------------------------
  // BroadcastDispatcher: agreement
  // ---------------------------------------------------------------------

  /** What subscription `s` has been sent since `k` slices had been routed. */
  function SentSince(t: Track, k: nat, s: SubId): seq<Event>
    requires k <= |t.slices|
  {
    BatchFor(t.slices[k..], s)
  }

  ghost predicate Agreement(t: Track) {
    && t.outlet.policy.ByBroadcast?
    && (forall s :: s in t.outlet.subs ==> s in t.since && t.since[s] <= |t.slices|)
    && (forall a, b :: a in t.outlet.subs && b in t.outlet.subs && t.since[a] <= t.since[b] ==>
          SentSince(t, t.since[b], a) == SentSince(t, t.since[b], b))
  }

  ghost predicate SameForAll(subs: seq<SubId>, slices: seq<Slice>) {
    forall a, b :: a in subs && b in subs ==> BatchFor(slices, a) == BatchFor(slices, b)
  }

  lemma DispatchSameForAll(o: Outlet, events: seq<Event>)
    requires o.policy.ByBroadcast? && Distinct(o.subs)
    ensures SameForAll(o.subs, DispatchEvents(o, events).slices)
  {
    if events != [] && o.subs != [] {
      var batch := PyTake(events, LeastOf(o.demand, o.subs));
      forall s | s in o.subs ensures BatchFor(Serve(o, events).slices, s) == batch {
        CopiesGiveBatch(o.subs, batch, s);
      }
    }
  }

  lemma SameForAllConcat(subs: seq<SubId>, a: seq<Slice>, b: seq<Slice>)
    requires SameForAll(subs, a) && SameForAll(subs, b)
    ensures SameForAll(subs, a + b)
  {
    forall s ensures BatchFor(a + b, s) == BatchFor(a, s) + BatchFor(b, s) {
      BatchForConcat(a, b, s);
    }
  }

  lemma {:induction false} ProduceSameForAll(o: Outlet, batches: seq<seq<Event>>)
    requires o.policy.ByBroadcast? && Distinct(o.subs)
    ensures SameForAll(o.subs, Produce(o, batches).slices)
    decreases |batches|
  {
    if !(Pending(o) <= 0 || batches == [] || batches[0] == []) {
      var step := DispatchEvents(o, batches[0]);
      DispatchSameForAll(o, batches[0]);
      ProduceSameForAll(step.outlet, batches[1..]);
      SameForAllConcat(o.subs, step.slices, Produce(step.outlet, batches[1..]).slices);
    }
  }

  /** Sending the same to everybody keeps agreement. */
  lemma RecordAgreement(t: Track, e: Effect)
    requires Agreement(t) && SameSubscribers(t.outlet, e.outlet) && SameForAll(t.outlet.subs, e.slices)
    ensures Agreement(Record(t, e))
  {
    var t' := Record(t, e);
    forall a, b | a in t.outlet.subs && b in t.outlet.subs && t.since[a] <= t.since[b]
      ensures SentSince(t', t.since[b], a) == SentSince(t', t.since[b], b)
    {
      var k := t.since[b];
      assert t'.slices[k..] == t.slices[k..] + e.slices;
      BatchForConcat(t.slices[k..], e.slices, a);
      BatchForConcat(t.slices[k..], e.slices, b);
      assert SentSince(t, k, a) == SentSince(t, k, b);
    }
  }

  /** A newcomer agrees with everybody, since nothing was sent yet. */
  lemma NewcomerAgrees(t: Track, s: SubId, o: Outlet)
    requires Agreement(t) && o.policy.ByBroadcast?
    requires forall x :: x in o.subs ==> x in t.outlet.subs || x == s
    ensures Agreement(t.(outlet := o, since := t.since[s := |t.slices|]))
  {
    var t' := t.(outlet := o, since := t.since[s := |t.slices|]);
    assert t.slices[|t.slices|..] == [];
    forall a, b | a in o.subs && b in o.subs && t'.since[a] <= t'.since[b]
      ensures SentSince(t', t'.since[b], a) == SentSince(t', t'.since[b], b)
    {
      if b != s && a != s {
        assert SentSince(t, t.since[b], a) == SentSince(t, t.since[b], b);
      } else if a == s && b != s {
        assert t.since[b] == |t.slices|;
      }
    }
  }

  lemma SubscribeAgreement(t: Track, s: SubId, consumer: Pid, partition: Option<int>)
    requires Agreement(t) && Distinct(t.outlet.subs)
    ensures Step(t, SubscribeOp(s, consumer, partition)).Some?
    ensures Agreement(Step(t, SubscribeOp(s, consumer, partition)).value)
  {
    var o := t.outlet;
    var o2 := Subscribed(o, s, consumer, partition);
    var e := DoSubscribe(o, s, consumer, partition, true).effect;
    assert Distinct(o2.subs);
    DispatchSameForAll(o2.(buffer := []), o2.buffer);
    Units(Flush(o2).slices);
    assert e.slices == Flush(o2).slices && e.outlet == Flush(o2).outlet;
    var t1 := t.(outlet := o2, since := t.since[s := |t.slices|]);
    NewcomerAgrees(t, s, o2);
    RecordAgreement(t1, e);
  }

  lemma DemandAgreement(t: Track, s: SubId, count: int, isProducer: bool, batches: seq<seq<Event>>)
    requires Agreement(t) && Distinct(t.outlet.subs)
    ensures Agreement(Record(t, DoDemand(t.outlet, s, count, isProducer, batches)))
  {
    var o := t.outlet;
    if s in o.subs {
      var o1 := Asked(o, s, count);
      DispatchSameForAll(o1.(buffer := []), o1.buffer);
      var flushed := Flush(o1);
      if isProducer {
        ProduceSameForAll(flushed.outlet, batches);
        ProduceKeepsSubscribers(flushed.outlet, batches);
        SameForAllConcat(o.subs, flushed.slices, Produce(flushed.outlet, batches).slices);
      }
    }
    RecordAgreement(t, DoDemand(o, s, count, isProducer, batches));
  }

  lemma CancelAgreement(t: Track, s: SubId)
    requires Agreement(t) && Distinct(t.outlet.subs)
    ensures Agreement(t.(outlet := DoCancel(t.outlet, s)))
  {
    var o := t.outlet;
    var t' := t.(outlet := DoCancel(o, s));
    WithoutElements(o.subs, s);
    assert s in o.subs ==> forall x :: x in t'.outlet.subs ==> x in Elements(t'.outlet.subs);
    assert forall x :: x in t'.outlet.subs ==> x in o.subs;
    forall a, b | a in t'.outlet.subs && b in t'.outlet.subs && t.since[a] <= t.since[b]
      ensures SentSince(t', t.since[b], a) == SentSince(t', t.since[b], b)
    {
      assert SentSince(t, t.since[b], a) == SentSince(t, t.since[b], b);
    }
  }

  lemma StepAgreement(t: Track, op: Op)
    requires Agreement(t) && Step(t, op).Some? && Distinct(t.outlet.subs)
    ensures Agreement(Step(t, op).value)
  {
    match op
    case SubscribeOp(s, consumer, partition) => SubscribeAgreement(t, s, consumer, partition);
    case DemandOp(s, count, isProducer, batches) => DemandAgreement(t, s, count, isProducer, batches);
    case DispatchOp(events) =>
      DispatchSameForAll(t.outlet, events);
      RecordAgreement(t, DispatchEvents(t.outlet, events).(produced := events));
    case CancelOp(s) => CancelAgreement(t, s);
  }

  /** Over every run, any two live subscriptions have been sent the identical
      sequence of events since the later of them subscribed. */
  lemma {:induction false} BroadcastAgreement(t: Track, ops: seq<Op>)
    requires Agreement(t) && Distinct(t.outlet.subs)
    ensures Agreement(Run(t, ops))
    decreases |ops|
  {
    if ops != [] && Step(t, ops[0]).Some? {
      StepAgreement(t, ops[0]);
      StepKeepsDistinct(t, ops[0]);
      BroadcastAgreement(Step(t, ops[0]).value, ops[1..]);
    }
  }

  /** From the first message on. */
  lemma BroadcastAgreementFromStart(ops: seq<Op>, a: SubId, b: SubId)
    ensures var t := Run(Start(ByBroadcast), ops);
            a in t.outlet.subs && b in t.outlet.subs ==>
              && a in t.since && b in t.since && t.since[a] <= |t.slices| && t.since[b] <= |t.slices|
              && (t.since[a] <= t.since[b] ==> SentSince(t, t.since[b], a) == SentSince(t, t.since[b], b))
  {
    BroadcastAgreement(Start(ByBroadcast), ops);
  }

  // ---------------------------------------------------------------------
  // The demand loop
  // ---------------------------------------------------------------------

  lemma PendingNeedsSubscribers(o: Outlet)
    requires Valid(o) && 0 < Pending(o)
    ensures o.subs != []
  {
    assert o.subs == [] ==> Elements(o.subs) == {} && o.demand == map[];
  }

  /** Under the demand and broadcast dispatchers a non-empty production lowers the
      pending demand by what it can use. */
  lemma ProductionLowersPending(o: Outlet, events: seq<Event>)
    requires Valid(o) && !o.policy.ByPartition? && 0 < Pending(o)
    ensures var o' := DispatchEvents(o, events).outlet;
            Valid(o') && Pending(o') == Pending(o) - Min(|events|, Pending(o))
  {
    DispatchAccounts(o, events);
    PendingNeedsSubscribers(o);
    if events != [] {
      var o' := DispatchEvents(o, events).outlet;
      match o.policy
      case ByDemand =>
        ServableIsTotal(o.demand, o.subs);
        ServableIsTotal(o'.demand, o.subs);
        DemandDispatchAmount(o.demand, o.subs, events);
        DemandTotalAfter(o.demand, o.subs, events);
      case ByBroadcast =>
        BroadcastDispatchAgrees(o.demand, o.subs, events);
    }
  }

  /** The total falls by exactly the number of events routed. */
  lemma {:induction false} DemandTotalAfter(t: Table, subs: seq<SubId>, events: seq<Event>)
    ensures var r := ServeByDemand(t, subs, events); Total(r.demand) == Total(t) - |Flatten(r.slices)|
    decreases |events|
  {
    if events != [] && AnyPositive(t, subs) {
      ServeByDemandStep(t, subs, events);
      var best := Best(t, subs);
      var n := Min(|events|, t[best]);
      var t' := t[best := t[best] - n];
      var rest := ServeByDemand(t', subs, events[n..]);
      assert Total(t') == Total(t) - n by { TotalUpdate(t, best, t[best] - n); }
      assert |Flatten(ServeByDemand(t, subs, events).slices)| == n + |Flatten(rest.slices)| by {
        FlattenStep(Slice(best, events[..n]), rest.slices);
      }
      DemandTotalAfter(t', subs, events[n..]);
    }
  }

  /** The demand loop against a producer that never stops answering: its `k`-th call
      returns `callback(k)`. That this function is defined at all is its termination. */
  ghost function ProduceAll(o: Outlet, callback: nat -> seq<Event>, k: nat): Effect
    requires Valid(o) && !o.policy.ByPartition?
    decreases Pending(o)
  {
    if Pending(o) <= 0 || callback(k) == [] then Nothing(o)
    else
      ProductionLowersPending(o, callback(k));
      DispatchAccounts(o, callback(k));
      var step := DispatchEvents(o, callback(k)).(produced := callback(k));
      Then(step, ProduceAll(step.outlet, callback, k + 1))
  }

  /** `batches` are the answers to the calls from the `k`th on. */
  ghost predicate Answers(callback: nat -> seq<Event>, k: nat, batches: seq<seq<Event>>) {
    forall i :: 0 <= i < |batches| ==> batches[i] == callback(k + i)
  }

  lemma AnswersShift(callback: nat -> seq<Event>, k: nat, batches: seq<seq<Event>>)
    requires batches != [] && Answers(callback, k, batches)
    ensures batches[0] == callback(k) && Answers(callback, k + 1, batches[1..])
  {
    assert batches[0] == callback(k + 0);
    forall i | 0 <= i < |batches[1..]| ensures batches[1..][i] == callback(k + 1 + i) {
      assert batches[1..][i] == batches[i + 1] == callback(k + (i + 1));
    }
  }

  lemma ProduceAllOnce(o: Outlet, callback: nat -> seq<Event>, k: nat, step: Effect)
    requires Valid(o) && !o.policy.ByPartition? && Pending(o) > 0 && callback(k) != []
    requires step == DispatchEvents(o, callback(k)).(produced := callback(k))
    ensures Valid(step.outlet) && !step.outlet.policy.ByPartition? && Pending(step.outlet) < Pending(o)
    ensures ProduceAll(o, callback, k) == Then(step, ProduceAll(step.outlet, callback, k + 1))
  {
    ProductionLowersPending(o, callback(k));
    DispatchAccounts(o, callback(k));
  }

  lemma ProduceOnce(o: Outlet, batches: seq<seq<Event>>, step: Effect)
    requires Pending(o) > 0 && batches != [] && batches[0] != []
    requires step == DispatchEvents(o, batches[0]).(produced := batches[0])
    ensures Produce(o, batches) == Then(step, Produce(step.outlet, batches[1..]))
  {
  }

  /** Whatever the callback answers, the demand loop ends within as many calls as
      there is pending demand: any longer script gives the same result. */
  lemma {:induction false} DemandLoopEnds(o: Outlet, callback: nat -> seq<Event>, k: nat, batches: seq<seq<Event>>)
    requires Valid(o) && !o.policy.ByPartition? && Pending(o) <= |batches|
    requires Answers(callback, k, batches)
    ensures Produce(o, batches) == ProduceAll(o, callback, k)
    decreases |batches|
  {
    if batches != [] {
      AnswersShift(callback, k, batches);
    }
    if Pending(o) > 0 && callback(k) != [] {
      var step := DispatchEvents(o, callback(k)).(produced := callback(k));
      ProduceOnce(o, batches, step);
      ProduceAllOnce(o, callback, k, step);
      DemandLoopEnds(step.outlet, callback, k + 1, batches[1..]);
    }
  }
}
