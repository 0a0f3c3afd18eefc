/** Whole runs of a stage with a broadcast dispatcher: each subscription is sent a stretch of
    what the stage produced, in order, exactly as long as no output of the stage overtakes
    events that wait. */
module BroadcastRuns {
  import opened Identifiers
  import opened Seqs
  import opened Wrappers

  import opened Dispatch
  import opened OutletRuns
  import opened Outlets
  import opened Tables

  ghost predicate Tail(xs: seq<Event>, ys: seq<Event>) {
    |ys| <= |xs| && xs[|xs| - |ys|..] == ys
  }

  lemma TailGrows(xs: seq<Event>, ys: seq<Event>, more: seq<Event>)
    requires Tail(xs, ys)
    ensures Tail(xs + more, ys + more)
  {
  }

  /** What `s` was sent since it subscribed, followed by the buffer, is the end of what was
      produced. */
  ghost predicate InStreamFor(t: Track, s: SubId) {
    && s in t.since && t.since[s] <= |t.slices|
    && Tail(t.produced, SentSince(t, t.since[s], s) + t.outlet.buffer)
  }

  ghost predicate InStream(t: Track) {
    && t.outlet.policy.ByBroadcast? && Valid(t.outlet)
    && Tail(t.produced, t.outlet.buffer)
    && (forall s {:trigger InStreamFor(t, s)} :: s in t.outlet.subs ==> InStreamFor(t, s))
  }

  /** Output of a middle stage is dispatched only while nothing waits that could be sent. */
  ghost predicate InTurn(o: Outlet, op: Op) {
    op.DispatchOp? && op.events != [] && o.buffer != [] ==> Pending(o) == 0
  }

  // ---------------------------------------------------------------------
  // One handler
  // ---------------------------------------------------------------------

  ghost predicate SentAll(subs: seq<SubId>, slices: seq<Slice>, batch: seq<Event>) {
    forall s :: s in subs ==> BatchFor(slices, s) == batch
  }

  /** The effect sends `batch` to all, which with the new buffer makes up `input`. */
  ghost predicate Spread(o: Outlet, e: Effect, batch: seq<Event>, input: seq<Event>) {
    && SameSubscribers(o, e.outlet) && Valid(e.outlet)
    && SentAll(o.subs, e.slices, batch) && batch + e.outlet.buffer == input
  }

  /** Events wait only while there is no demand. */
  ghost predicate Waits(o: Outlet) {
    o.buffer != [] ==> Pending(o) == 0
  }

  lemma NothingSpreads(o: Outlet)
    requires Valid(o)
    ensures Spread(o, Nothing(o), [], o.buffer)
  {
    Units(o.buffer);
  }

  /** Without subscribers everything is kept. */
  lemma KeptSpreads(o: Outlet, events: seq<Event>)
    requires Valid(o) && o.policy.ByBroadcast? && o.subs == []
    ensures Spread(o, Nothing(o.(buffer := o.buffer + events)), [], o.buffer + events)
    ensures Waits(o.(buffer := o.buffer + events))
  {
    Units(o.buffer + events);
    assert Elements(o.subs) == {} && o.demand == map[];
  }

  /** Either nothing waits, or nobody can be sent anything. */
  lemma CutInput(o: Outlet, batch: seq<Event>, leftover: seq<Event>, events: seq<Event>)
    requires batch + leftover == events && (o.buffer == [] || batch == [])
    ensures batch + (o.buffer + leftover) == o.buffer + events
  {
    Units(leftover);
    Units(o.buffer + leftover);
  }

  lemma ServedSpreads(o: Outlet, events: seq<Event>, r: Served, batch: seq<Event>)
    requires Valid(o) && o.policy.ByBroadcast? && o.subs != [] && events != [] && InTurn(o, DispatchOp(events))
    requires r == ServeByBroadcast(o.demand, o.subs, events) && batch == PyTake(events, LeastOf(o.demand, o.subs))
    ensures batch + (o.buffer + r.leftover) == o.buffer + events
    ensures o.buffer + r.leftover != [] ==> Least(r.demand) == 0
    ensures SentAll(o.subs, r.slices, batch)
  {
    BroadcastDispatchAgrees(o.demand, o.subs, events);
    LeastIsMinimum(o.demand);
    assert o.buffer != [] ==> Least(o.demand) == 0;
    CutInput(o, batch, r.leftover, events);
  }

  lemma DispatchSpreads(o: Outlet, events: seq<Event>) returns (batch: seq<Event>)
    requires Valid(o) && o.policy.ByBroadcast? && InTurn(o, DispatchOp(events))
    ensures Spread(o, DispatchEvents(o, events), batch, o.buffer + events)
    ensures Waits(o) || events != [] ==> Waits(DispatchEvents(o, events).outlet)
  {
    if events == [] {
      batch := [];
      NothingSpreads(o);
      Units(o.buffer);
    } else if o.subs == [] {
      batch := [];
      KeptSpreads(o, events);
    } else {
      batch := PyTake(events, LeastOf(o.demand, o.subs));
      ServedSpreads(o, events, Serve(o, events), batch);
      DispatchAccounts(o, events);
    }
  }

  lemma FlushSpreads(o: Outlet) returns (batch: seq<Event>)
    requires Valid(o) && o.policy.ByBroadcast?
    ensures Spread(o, Flush(o), batch, o.buffer) && Waits(Flush(o).outlet)
  {
    if o.buffer == [] {
      batch := [];
      NothingSpreads(o);
    } else {
      batch := DispatchSpreads(o.(buffer := []), o.buffer);
      Units(o.buffer);
    }
  }

  lemma ThenSpreads(o: Outlet, e: Effect, f: Effect, b1: seq<Event>, b2: seq<Event>,
                    input: seq<Event>, more: seq<Event>)
    requires Spread(o, e, b1, input) && Spread(e.outlet, f, b2, e.outlet.buffer + more)
    ensures Spread(o, Then(e, f), b1 + b2, input + more)
  {
    forall s | s in o.subs ensures BatchFor(e.slices + f.slices, s) == b1 + b2 {
      BatchForConcat(e.slices, f.slices, s);
    }
    Assoc(b1, b2, f.outlet.buffer);
    Assoc(b1, e.outlet.buffer, more);
  }

  lemma {:induction false} ProduceSpreads(o: Outlet, batches: seq<seq<Event>>) returns (batch: seq<Event>)
    requires Valid(o) && o.policy.ByBroadcast? && Waits(o)
    ensures Spread(o, Produce(o, batches), batch, o.buffer + Produce(o, batches).produced)
    decreases |batches|
  {
    Units(o.buffer);
    if Pending(o) <= 0 || batches == [] || batches[0] == [] {
      batch := [];
      NothingSpreads(o);
    } else {
      var step := DispatchEvents(o, batches[0]).(produced := batches[0]);
      var rest := Produce(step.outlet, batches[1..]);
      var b1 := DispatchSpreads(o, batches[0]);
      var b2 := ProduceSpreads(step.outlet, batches[1..]);
      ThenSpreads(o, step, rest, b1, b2, o.buffer + batches[0], rest.produced);
      Assoc(o.buffer, batches[0], rest.produced);
      ProduceOnce(o, batches, step);
      batch := b1 + b2;
    }
  }

  /** `Asked` in front changes no subscriber. */
  lemma DemandSpreads(o: Outlet, s: SubId, count: int, isProducer: bool, batches: seq<seq<Event>>)
    returns (batch: seq<Event>)
    requires Valid(o) && o.policy.ByBroadcast? && 0 <= count
    ensures var e := DoDemand(o, s, count, isProducer, batches); Spread(o, e, batch, o.buffer + e.produced)
  {
    Units(o.buffer);
    if s !in o.subs {
      batch := [];
      NothingSpreads(o);
    } else {
      DemandAccounts(o, s, count, isProducer, batches);
      var o1 := Asked(o, s, count);
      var b1 := FlushSpreads(o1);
      batch := b1;
      if isProducer {
        var flushed := Flush(o1);
        var produced := Produce(flushed.outlet, batches);
        var b2 := ProduceSpreads(flushed.outlet, batches);
        ThenSpreads(o1, flushed, produced, b1, b2, o.buffer, produced.produced);
        Units(produced.produced);
        batch := b1 + b2;
      }
    }
  }

  // ---------------------------------------------------------------------
  // One step
  // ---------------------------------------------------------------------

  lemma RecordStreams(t: Track, e: Effect, batch: seq<Event>)
    requires InStream(t) && Spread(t.outlet, e, batch, t.outlet.buffer + e.produced)
    ensures InStream(Record(t, e))
  {
    var t' := Record(t, e);
    TailGrows(t.produced, t.outlet.buffer, e.produced);
    assert Tail(t'.produced, e.outlet.buffer);
    forall s | s in t'.outlet.subs ensures InStreamFor(t', s) {
      RecordStreamsFor(t, e, batch, s);
    }
  }

  lemma RecordStreamsFor(t: Track, e: Effect, batch: seq<Event>, s: SubId)
    requires InStreamFor(t, s) && BatchFor(e.slices, s) == batch
    requires batch + e.outlet.buffer == t.outlet.buffer + e.produced
    ensures InStreamFor(Record(t, e), s)
  {
    var t', k := Record(t, e), t.since[s];
    var sent := SentSince(t, k, s);
    assert t'.slices[k..] == t.slices[k..] + e.slices;
    BatchForConcat(t.slices[k..], e.slices, s);
    Assoc(sent, batch, e.outlet.buffer);
    Assoc(sent, t.outlet.buffer, e.produced);
    TailGrows(t.produced, sent + t.outlet.buffer, e.produced);
  }

  lemma SubscribeStreams(t: Track, s: SubId, consumer: Pid, partition: Option<int>)
    requires InStream(t)
    ensures Step(t, SubscribeOp(s, consumer, partition)).Some?
    ensures InStream(Step(t, SubscribeOp(s, consumer, partition)).value)
  {
    var o2 := Subscribed(t.outlet, s, consumer, partition);
    SubscribedValid(t.outlet, s, consumer, partition);
    var t1 := t.(outlet := o2, since := t.since[s := |t.slices|]);
    forall x | x in o2.subs ensures InStreamFor(t1, x) {
      if x != s {
        assert InStreamFor(t, x);
      } else {
        assert t.slices[|t.slices|..] == [];
        Units(t.outlet.buffer);
      }
    }
    var batch := FlushSpreads(o2);
    Units(o2.buffer);
    RecordStreams(t1, Flush(o2), batch);
    Units(Flush(o2).slices);
    Units(Flush(o2).produced);
  }

  lemma CancelStreams(t: Track, s: SubId)
    requires InStream(t)
    ensures InStream(t.(outlet := DoCancel(t.outlet, s)))
  {
    var t' := t.(outlet := DoCancel(t.outlet, s));
    CancelValid(t.outlet, s);
    forall x | x in t'.outlet.subs ensures InStreamFor(t', x) {
      assert InStreamFor(t, x);
    }
  }

  lemma StepStreams(t: Track, op: Op)
    requires InStream(t) && Step(t, op).Some? && (op.DemandOp? ==> 0 <= op.count) && InTurn(t.outlet, op)
    ensures InStream(Step(t, op).value)
  {
    match op
    case SubscribeOp(s, consumer, partition) => SubscribeStreams(t, s, consumer, partition);
    case DemandOp(s, count, isProducer, batches) =>
      var batch := DemandSpreads(t.outlet, s, count, isProducer, batches);
      RecordStreams(t, DoDemand(t.outlet, s, count, isProducer, batches), batch);
    case DispatchOp(events) =>
      var batch := DispatchSpreads(t.outlet, events);
      RecordStreams(t, DispatchEvents(t.outlet, events).(produced := events), batch);
    case CancelOp(s) => CancelStreams(t, s);
  }

  /** Output dispatched out of turn overtakes the first event that waits. */
  lemma Overtakes(t: Track, events: seq<Event>)
    requires InStream(t) && !InTurn(t.outlet, DispatchOp(events)) && Distinct(t.produced + events)
    ensures !InStream(Step(t, DispatchOp(events)).value)
  {
    var o := t.outlet;
    PendingIsSome(o);
    var s := o.subs[0];
    assert InStreamFor(t, s);
    var batch := FirstOfBatch(o, events, s);
    NotTheTail(t, DispatchEvents(o, events).(produced := events), batch, s);
  }

  /** Everybody is sent something, and it starts with the first event. */
  lemma FirstOfBatch(o: Outlet, events: seq<Event>, s: SubId) returns (batch: seq<Event>)
    requires Valid(o) && o.policy.ByBroadcast? && s in o.subs && 0 < Pending(o) && events != []
    ensures var e := DispatchEvents(o, events);
            && BatchFor(e.slices, s) == batch && batch != [] && batch[0] == events[0]
            && |batch| + |e.outlet.buffer| == |o.buffer| + |events|
  {
    BroadcastDispatchAgrees(o.demand, o.subs, events);
    batch := PyTake(events, LeastOf(o.demand, o.subs));
  }

  lemma PendingIsSome(o: Outlet)
    requires Valid(o) && o.policy.ByBroadcast? && Pending(o) != 0
    ensures o.subs != [] && 0 < Pending(o)
  {
    assert o.subs == [] ==> Elements(o.subs) == {} && o.demand == map[];
    LeastIsMinimum(o.demand);
  }

  lemma NotTheTail(t: Track, e: Effect, batch: seq<Event>, s: SubId)
    requires InStreamFor(t, s) && BatchFor(e.slices, s) == batch && t.outlet.buffer != [] && batch != []
    requires e.produced != [] && batch[0] == e.produced[0] && Distinct(t.produced + e.produced)
    requires |batch| + |e.outlet.buffer| == |t.outlet.buffer| + |e.produced|
    ensures !InStreamFor(Record(t, e), s)
  {
    var t', k := Record(t, e), t.since[s];
    var sent := SentSince(t, k, s);
    assert t'.slices[k..] == t.slices[k..] + e.slices;
    BatchForConcat(t.slices[k..], e.slices, s);
    var was, now := sent + t.outlet.buffer, SentSince(t', k, s) + e.outlet.buffer;
    var from := |t.produced| - |was|;
    assert |now| == |was| + |e.produced| && now[|sent|] == batch[0];
    assert t.produced[from..][|sent|] == was[|sent|] == t.outlet.buffer[0];
    assert t'.produced[from + |sent|] == t.outlet.buffer[0];
    assert t'.produced[|t.produced|] == e.produced[0];
    assert t'.produced[from..][|sent|] != now[|sent|];
  }

  // ---------------------------------------------------------------------
  // Whole runs
  // ---------------------------------------------------------------------

  ghost predicate StreamThroughout(t: Track, ops: seq<Op>)
    decreases |ops|
  {
    InStream(t) && (ops != [] && Step(t, ops[0]).Some? ==> StreamThroughout(Step(t, ops[0]).value, ops[1..]))
  }

  ghost predicate InTurnThroughout(t: Track, ops: seq<Op>)
    decreases |ops|
  {
    ops != [] && Step(t, ops[0]).Some? ==>
      InTurn(t.outlet, ops[0]) && InTurnThroughout(Step(t, ops[0]).value, ops[1..])
  }

  lemma {:induction false} InTurnStreams(t: Track, ops: seq<Op>)
    requires InStream(t) && Sensible(ops) && InTurnThroughout(t, ops)
    ensures StreamThroughout(t, ops)
    decreases |ops|
  {
    if ops != [] && Step(t, ops[0]).Some? {
      StepStreams(t, ops[0]);
      assert forall i :: 0 <= i < |ops[1..]| ==> ops[1..][i] == ops[i + 1];
      InTurnStreams(Step(t, ops[0]).value, ops[1..]);
    }
  }

  lemma {:induction false} ProducedGrows(t: Track, ops: seq<Op>)
    ensures t.produced <= Run(t, ops).produced
    decreases |ops|
  {
    if ops != [] && Step(t, ops[0]).Some? {
      ProducedGrows(Step(t, ops[0]).value, ops[1..]);
    }
  }

  lemma {:induction false} StreamsInTurn(t: Track, ops: seq<Op>)
    requires InStream(t) && StreamThroughout(t, ops) && Distinct(Run(t, ops).produced)
    ensures InTurnThroughout(t, ops)
    decreases |ops|
  {
    if ops != [] && Step(t, ops[0]).Some? {
      var t' := Step(t, ops[0]).value;
      StreamsInTurn(t', ops[1..]);
      if !InTurn(t.outlet, ops[0]) {
        ProducedGrows(t', ops[1..]);
        PrefixDistinct(t'.produced, Run(t', ops[1..]).produced);
        Overtakes(t, ops[0].events);
      }
    }
  }

  lemma PrefixDistinct(a: seq<Event>, b: seq<Event>)
    requires a <= b && Distinct(b)
    ensures Distinct(a)
  {
  }

  /** From the start, if no event is produced twice: at every moment every live subscription
      has been sent a stretch of what was produced, in order and without a gap, which the
      buffer continues to the end; if and only if no output of a middle stage is dispatched
      while events wait although all subscribers have demand. */
  lemma BroadcastFifoExactlyWhen(ops: seq<Op>)
    requires Sensible(ops) && Distinct(Run(Start(ByBroadcast), ops).produced)
    ensures StreamThroughout(Start(ByBroadcast), ops) <==> InTurnThroughout(Start(ByBroadcast), ops)
  {
    if InTurnThroughout(Start(ByBroadcast), ops) {
      InTurnStreams(Start(ByBroadcast), ops);
    }
    if StreamThroughout(Start(ByBroadcast), ops) {
      StreamsInTurn(Start(ByBroadcast), ops);
    }
  }

  ghost predicate OnlyDemanded(ops: seq<Op>) {
    forall i :: 0 <= i < |ops| ==> !ops[i].DispatchOp?
  }

  lemma {:induction false} DemandedIsInTurn(t: Track, ops: seq<Op>)
    requires OnlyDemanded(ops)
    ensures InTurnThroughout(t, ops)
    decreases |ops|
  {
    if ops != [] && Step(t, ops[0]).Some? {
      assert forall i :: 0 <= i < |ops[1..]| ==> ops[1..][i] == ops[i + 1];
      DemandedIsInTurn(Step(t, ops[0]).value, ops[1..]);
    }
  }

  /** A stage that only produces on demand is such a stage, whatever it produces. */
  lemma BroadcastFifoOfProducers(ops: seq<Op>)
    requires Sensible(ops) && OnlyDemanded(ops)
    ensures StreamThroughout(Start(ByBroadcast), ops)
  {
    DemandedIsInTurn(Start(ByBroadcast), ops);
    InTurnStreams(Start(ByBroadcast), ops);
  }

  // ---------------------------------------------------------------------
  // A run in which output overtakes
  // ---------------------------------------------------------------------

  lemma {:induction false} StreamAtEnd(t: Track, ops: seq<Op>)
    requires StreamThroughout(t, ops)
    ensures InStream(Run(t, ops))
    decreases |ops|
  {
    if ops != [] && Step(t, ops[0]).Some? {
      StreamAtEnd(Step(t, ops[0]).value, ops[1..]);
    }
  }

  lemma RunOnce(t: Track, op: Op, rest: seq<Op>, t': Track)
    requires Step(t, op) == Some(t')
    ensures Run(t, [op] + rest) == Run(t', rest)
  {
    ConcatHead([op], rest);
    Units(rest);
  }

  /** Two subscribers without demand. */
  function Both(a: SubId, b: SubId, ca: Pid, cb: Pid): Outlet {
    Outlet(ByBroadcast, [a, b], map[a := ca, b := cb], map[a := 0, b := 0], map[], [])
  }

  lemma BothSubscribe(a: SubId, b: SubId, ca: Pid, cb: Pid, rest: seq<Op>)
    requires a != b
    ensures Run(Start(ByBroadcast), [SubscribeOp(a, ca, None)] + ([SubscribeOp(b, cb, None)] + rest))
         == Run(Track(Both(a, b, ca, cb), [], [], map[a := 0, b := 0]), rest)
  {
    var o1 := Outlet(ByBroadcast, [a], map[a := ca], map[a := 0], map[], []);
    var t1 := Track(o1, [], [], map[a := 0]);
    var t2 := Track(Both(a, b, ca, cb), [], [], map[a := 0, b := 0]);
    assert Subscribed(NewOutlet(ByBroadcast), a, ca, None) == o1;
    RunOnce(Start(ByBroadcast), SubscribeOp(a, ca, None), [SubscribeOp(b, cb, None)] + rest, t1);
    assert [a] + [b] == [a, b];
    assert Subscribed(o1, b, cb, None) == Both(a, b, ca, cb);
    RunOnce(t1, SubscribeOp(b, cb, None), rest, t2);
  }

  lemma DispatchToOne(a: SubId, o: Outlet, event: Event)
    requires o.policy.ByBroadcast? && o.subs == [a] && o.demand == map[a := 1]
    ensures var e := DispatchEvents(o, [event]);
            e.outlet.buffer == o.buffer && e.outlet.subs == o.subs && BatchFor(e.slices, a) == [event]
  {
    BroadcastDispatchAgrees(o.demand, o.subs, [event]);
    LeastIsMinimum(o.demand);
    var r := ServeByBroadcast(o.demand, o.subs, [event]);
    assert a in o.demand && Least(o.demand) == 1;
    assert BatchFor(r.slices, a) == [event] && r.leftover == [];
    Units(o.buffer);
  }

  /** With a subscriber that has no demand, everything waits. */
  lemma NobodyServed(t: Table, subs: seq<SubId>, events: seq<Event>, r: Served, s: SubId)
    requires Distinct(subs) && subs != [] && Elements(subs) == t.Keys && NonNegative(t) && Least(t) == 0
    requires r == ServeByBroadcast(t, subs, events)
    ensures r.leftover == events && BatchFor(r.slices, s) == [] && SameEntries(t, r.demand)
  {
    BroadcastDispatchAgrees(t, subs, events);
    Units(r.leftover);
  }

  ghost predicate SameEntries(t: Table, u: Table) {
    u.Keys == t.Keys && forall s :: s in t ==> u[s] == t[s]
  }

  lemma EverythingWaits(o: Outlet, events: seq<Event>, s: SubId)
    requires Valid(o) && o.policy.ByBroadcast? && o.subs != [] && Least(o.demand) == 0 && events != []
    ensures var e := DispatchEvents(o, events);
            e.outlet == o.(buffer := o.buffer + events) && BatchFor(e.slices, s) == []
  {
    var r := ServeByBroadcast(o.demand, o.subs, events);
    NobodyServed(o.demand, o.subs, events, r, s);
    SameTable(o.demand, r.demand);
    assert DispatchEvents(o, events).outlet == o.(demand := r.demand, buffer := o.buffer + r.leftover);
  }

  lemma SameTable(t: Table, u: Table)
    requires SameEntries(t, u)
    ensures u == t
  {
  }

  lemma LeastOfTwo(a: SubId, b: SubId)
    requires a != b
    ensures Least(map[a := 1, b := 0]) == 0
  {
    var t: Table := map[a := 1, b := 0];
    LeastIsMinimum(t);
    assert b in t && t[b] == 0;
  }

  /** Only `a` has demand when `first` is dispatched, so it waits; `b` leaves without a flush,
      and `second` goes to `a` ahead of it. */
  function Overtaking(a: SubId, b: SubId, ca: Pid, cb: Pid, first: Event, second: Event): seq<Op> {
    [SubscribeOp(a, ca, None)] + ([SubscribeOp(b, cb, None)] + OvertakingAfter(a, b, first, second))
  }

  function OvertakingAfter(a: SubId, b: SubId, first: Event, second: Event): seq<Op> {
    [DemandOp(a, 1, false, [])] + ([DispatchOp([first])] + ([CancelOp(b)] + ([DispatchOp([second])] + [])))
  }

  lemma RecordFirst(o: Outlet, since: map<SubId, nat>, e: Effect)
    ensures Record(Track(o, [], [], since), e) == Track(e.outlet, e.produced, e.slices, since)
  {
    Units(e.produced);
    Units(e.slices);
  }

  lemma WithoutSecond(a: SubId, b: SubId)
    requires a != b
    ensures Without([a, b], b) == [a]
  {
    var none: seq<SubId> := [];
    assert [b][1..] == none && Without([b], b) == Without(none, b) == none;
    assert [a, b][1..] == [b] && Without([a, b], b) == [a] + Without([b], b);
    Units([a]);
  }

  lemma OneAsked(a: SubId, b: SubId, o: Outlet, since: map<SubId, nat>)
    requires a != b && o.subs == [a, b] && o.demand == map[a := 0, b := 0] && o.buffer == []
    ensures Step(Track(o, [], [], since), DemandOp(a, 1, false, []))
         == Some(Track(o.(demand := map[a := 1, b := 0]), [], [], since))
  {
    var o' := o.(demand := map[a := 1, b := 0]);
    assert Asked(o, a, 1).demand == o'.demand;
    assert DoDemand(o, a, 1, false, []) == Nothing(o');
    RecordFirst(o, since, Nothing(o'));
  }

  lemma FirstWaits(a: SubId, b: SubId, o: Outlet, since: map<SubId, nat>, first: Event, rest: seq<Op>)
    returns (slices: seq<Slice>)
    requires a != b && Valid(o) && o.policy.ByBroadcast? && o.buffer == []
    requires o.subs == [a, b] && o.demand == map[a := 0, b := 0]
    ensures BatchFor(slices, a) == []
    ensures Run(Track(o, [], [], since), [DemandOp(a, 1, false, [])] + ([DispatchOp([first])] + rest))
         == Run(Track(o.(demand := map[a := 1, b := 0], buffer := [first]), [first], slices, since), rest)
  {
    var o' := o.(demand := map[a := 1, b := 0]);
    OneAsked(a, b, o, since);
    RunOnce(Track(o, [], [], since), DemandOp(a, 1, false, []), [DispatchOp([first])] + rest, Track(o', [], [], since));
    assert o'.demand.Keys == o.demand.Keys;
    slices := WaitsAtFirst(a, b, o', since, first, rest);
  }

  lemma WaitsAtFirst(a: SubId, b: SubId, o: Outlet, since: map<SubId, nat>, first: Event, rest: seq<Op>)
    returns (slices: seq<Slice>)
    requires a != b && Valid(o) && o.policy.ByBroadcast? && o.buffer == []
    requires o.subs == [a, b] && o.demand == map[a := 1, b := 0]
    ensures BatchFor(slices, a) == []
    ensures Run(Track(o, [], [], since), [DispatchOp([first])] + rest)
         == Run(Track(o.(buffer := [first]), [first], slices, since), rest)
  {
    var e := DispatchEvents(o, [first]).(produced := [first]);
    LeastOfTwo(a, b);
    EverythingWaits(o, [first], a);
    Units([first]);
    slices := e.slices;
    RecordFirst(o, since, e);
    RunOnce(Track(o, [], [], since), DispatchOp([first]), rest, Track(e.outlet, [first], slices, since));
  }

  lemma SecondOvertakes(a: SubId, b: SubId, t: Track, second: Event) returns (end: Track)
    requires a != b && t.outlet.policy.ByBroadcast? && t.outlet.subs == [a, b]
    requires t.outlet.demand == map[a := 1, b := 0] && BatchFor(t.slices, a) == []
    ensures end == Run(t, [CancelOp(b)] + ([DispatchOp([second])] + []))
    ensures end.produced == t.produced + [second] && end.outlet.subs == [a] && end.outlet.buffer == t.outlet.buffer
    ensures end.since == t.since && BatchFor(end.slices, a) == [second]
  {
    var o := DoCancel(t.outlet, b);
    WithoutSecond(a, b);
    assert o.demand == map[a := 1];
    var e := DispatchEvents(o, [second]);
    DispatchToOne(a, o, second);
    end := Track(e.outlet, t.produced + [second], t.slices + e.slices, t.since);
    RunOnce(t, CancelOp(b), [DispatchOp([second])] + [], t.(outlet := o));
    RunOnce(t.(outlet := o), DispatchOp([second]), [], end);
    BatchForConcat(t.slices, e.slices, a);
  }

  lemma OvertakenFromStart(a: SubId, b: SubId, ca: Pid, cb: Pid, first: Event, second: Event)
    requires a != b && first != second
    ensures var ops := Overtaking(a, b, ca, cb, first, second); var t := Run(Start(ByBroadcast), ops);
            && t.produced == [first, second] && t.outlet.subs == [a] && t.outlet.buffer == [first]
            && a in t.since && t.since[a] == 0 && SentSince(t, 0, a) == [second]
            && !StreamThroughout(Start(ByBroadcast), ops)
  {
    var since: map<SubId, nat> := map[a := 0, b := 0];
    var o, rest := Both(a, b, ca, cb), [CancelOp(b)] + ([DispatchOp([second])] + []);
    BothSubscribe(a, b, ca, cb, OvertakingAfter(a, b, first, second));
    var slices := FirstWaits(a, b, o, since, first, rest);
    var t := Track(o.(demand := map[a := 1, b := 0], buffer := [first]), [first], slices, since);
    var end := SecondOvertakes(a, b, t, second);
    assert end.slices[0..] == end.slices;
    NotInStream(end, a, first, second);
    if StreamThroughout(Start(ByBroadcast), Overtaking(a, b, ca, cb, first, second)) {
      StreamAtEnd(Start(ByBroadcast), Overtaking(a, b, ca, cb, first, second));
    }
  }

  lemma NotInStream(t: Track, a: SubId, first: Event, second: Event)
    requires t.produced == [first, second] && t.outlet.subs == [a] && t.outlet.buffer == [first] && first != second
    requires a in t.since && t.since[a] == 0 && SentSince(t, 0, a) == [second]
    ensures !InStream(t)
  {
    assert ([second] + [first])[0] == second;
    assert !InStreamFor(t, a);
    assert a in t.outlet.subs;
  }
}
