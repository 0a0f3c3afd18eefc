/** The stage object itself: its dicts, buffer and dispatcher are fields its handlers
    update. Each handler is proved to do exactly what module Network says a message
    does, so that everything proved there is about these methods. Messages handed to
    other mailboxes are appended to `sent`. */
module Stages {
  import opened Identifiers
  import opened Seqs
  import opened Wrappers

  import opened Dispatch
  import opened Dispatchers
  import opened Network
  import opened Outlets
  import opened Tables

  datatype Dispatcher =
    | OfDemand(d: DemandDispatcher)
    | OfBroadcast(b: BroadcastDispatcher)
    | OfPartition(p: PartitionDispatcher)
  {
    ghost function Object(): object {
      match this
      case OfDemand(d) => d
      case OfBroadcast(b) => b
      case OfPartition(p) => p
    }

    ghost function Policy(): Policy {
      match this
      case OfDemand(_) => ByDemand
      case OfBroadcast(_) => ByBroadcast
      case OfPartition(p) => ByPartition(p.hash)
    }

    ghost function Demand(): Table
      reads Object()
    {
      match this
      case OfDemand(d) => d.demand
      case OfBroadcast(b) => b.demand
      case OfPartition(p) => p.demand
    }

    ghost function PartitionMap(): map<int, SubId>
      reads Object()
    {
      match this
      case OfDemand(_) => map[]
      case OfBroadcast(_) => map[]
      case OfPartition(p) => p.partitionMap
    }
  }

  lemma {:induction false} SendsForConcat(a: seq<SubId>, b: seq<SubId>, peer: map<SubId, Pid>, slices: seq<Slice>)
    ensures SendsFor(a + b, peer, slices) == SendsFor(a, peer, slices) + SendsFor(b, peer, slices)
  {
    if a == [] {
      Units(b);
      Units(SendsFor(b, peer, slices));
    } else {
      SendsForConcat(a[1..], b, peer, slices);
      ConcatHead(a, b);
      if BatchFor(slices, a[0]) != [] && a[0] in peer {
        Assoc([Send(peer[a[0]], Events(a[0], BatchFor(slices, a[0])))], SendsFor(a[1..], peer, slices),
              SendsFor(b, peer, slices));
      }
    }
  }

  class GenStage {
    const kind: Kind
    const dispatcher: Dispatcher
    var subs: seq<SubId>           // key order of _producer_subs
    var peer: map<SubId, Pid>
    var consumerSubs: Intake
    var outputBuffer: seq<Event>
    var sent: seq<Send>

    ghost predicate Valid()
      reads this
    {
      Distinct(subs) && peer.Keys == Elements(subs)
    }

    /** The producer side as a value. */
    ghost function Producing(): Outlet
      reads this, dispatcher.Object()
    {
      Outlet(dispatcher.Policy(), subs, peer, dispatcher.Demand(), dispatcher.PartitionMap(), outputBuffer)
    }

    constructor (kind: Kind, dispatcher: Dispatcher)
      requires dispatcher.Demand() == map[] && dispatcher.PartitionMap() == map[]
      ensures Valid() && this.kind == kind && this.dispatcher == dispatcher
      ensures Producing() == NewOutlet(dispatcher.Policy()) && consumerSubs == map[] && sent == []
    {
      this.kind := kind;
      this.dispatcher := dispatcher;
      subs, peer, consumerSubs, outputBuffer, sent := [], map[], map[], [], [];
    }

    method TotalPending() returns (pending: int)
      ensures pending == Pending(Producing())
    {
      match dispatcher
      case OfDemand(d) => pending := d.TotalPending();
      case OfBroadcast(b) => pending := b.TotalPending();
      case OfPartition(p) => pending := p.TotalPending();
    }

    method Route(events: seq<Event>) returns (leftover: seq<Event>, result: map<SubId, seq<Event>>)
      requires Valid() && subs != []
      modifies dispatcher.Object()
      ensures var r := Serve(old(Producing()), events);
              leftover == r.leftover && result == Routed(subs, r.slices)
                && Producing() == old(Producing()).(demand := r.demand)
    {
      match dispatcher
      case OfDemand(d) => leftover, result := d.Dispatch(events, subs);
      case OfBroadcast(b) => leftover, result := b.Dispatch(events, subs);
      case OfPartition(p) => leftover, result := p.Dispatch(events, subs);
    }

    method DispatchEvents(events: seq<Event>)
      requires Valid()
      modifies this`outputBuffer, this`sent, dispatcher.Object()
      ensures Valid()
      ensures var e := Outlets.DispatchEvents(old(Producing()), events);
              Producing() == e.outlet && sent == old(sent) + e.sends
    {
      Units(sent);
      if events == [] {
        return;
      }
      if subs == [] {
        outputBuffer := outputBuffer + events;
        return;
      }
      RouteAndSend(events);
    }

    method RouteAndSend(events: seq<Event>)
      requires Valid() && events != [] && subs != []
      modifies this`outputBuffer, this`sent, dispatcher.Object()
      ensures Valid()
      ensures var e := Outlets.DispatchEvents(old(Producing()), events);
              Producing() == e.outlet && sent == old(sent) + e.sends
    {
      ghost var slices := Serve(Producing(), events).slices;
      RoutedEffect(Producing(), events);
      var leftover, result := Route(events);
      outputBuffer := outputBuffer + leftover;
      SendRouted(result, slices);
    }

    lemma RoutedEffect(o: Outlet, events: seq<Event>)
      requires events != [] && o.subs != []
      ensures var r, e := Serve(o, events), Outlets.DispatchEvents(o, events);
              && e.outlet == o.(demand := r.demand, buffer := o.buffer + r.leftover)
              && e.sends == SendsFor(o.subs, o.peer, r.slices)
    {
    }

    /** The loop over `routed.items()`: one message per non-empty batch, in dict order. */
    method SendRouted(result: map<SubId, seq<Event>>, ghost slices: seq<Slice>)
      requires result == Routed(subs, slices)
      modifies this`sent
      ensures sent == old(sent) + SendsFor(subs, peer, slices)
    {
      Units(sent);
      for i := 0 to |subs|
        invariant sent == old(sent) + SendsFor(subs[..i], peer, slices)
      {
        Units(sent);
        var batch := result[subs[i]];
        assert subs[..i + 1] == subs[..i] + [subs[i]];
        SendsForConcat(subs[..i], [subs[i]], peer, slices);
        OneSend(subs[i], peer, slices);
        Assoc(old(sent), SendsFor(subs[..i], peer, slices), SendsFor([subs[i]], peer, slices));
        if batch != [] && subs[i] in peer {
          sent := sent + [Send(peer[subs[i]], Events(subs[i], batch))];
        }
      }
      assert subs[..|subs|] == subs;
    }

    lemma OneSend(s: SubId, peer: map<SubId, Pid>, slices: seq<Slice>)
      ensures SendsFor([s], peer, slices)
           == if BatchFor(slices, s) != [] && s in peer then [Send(peer[s], Events(s, BatchFor(slices, s)))] else []
    {
      assert [s][1..] == [];
    }

    method FlushBuffer()
      requires Valid()
      modifies this`outputBuffer, this`sent, dispatcher.Object()
      ensures Valid()
      ensures var e := Flush(old(Producing())); Producing() == e.outlet && sent == old(sent) + e.sends
    {
      Units(sent);
      if outputBuffer != [] {
        var buf := outputBuffer;
        outputBuffer := [];
        DispatchEvents(buf);
      }
    }

    /** Enters the subscription into the dict and the dispatcher; false if that raises. */
    method Enlist(s: SubId, consumer: Pid, partition: Option<int>) returns (ok: bool)
      requires Valid()
      modifies this`subs, this`peer, dispatcher.Object()
      ensures Valid() && ok == !Refused(old(Producing()), partition)
      ensures Producing() == if ok then Subscribed(old(Producing()), s, consumer, partition)
                             else Registered(old(Producing()), s, consumer)
    {
      RegisteredElements(subs, s);
      subs := if s in subs then subs else subs + [s];
      peer := peer[s := consumer];
      ok := true;
      match dispatcher
      case OfDemand(d) => d.Subscribe(s);
      case OfBroadcast(b) => b.Subscribe(s);
      case OfPartition(p) => ok := p.Subscribe(s, partition);
    }

    lemma RegisteredElements(subs: seq<SubId>, s: SubId)
      requires Distinct(subs)
      ensures var subs' := if s in subs then subs else subs + [s];
              Distinct(subs') && Elements(subs') == Elements(subs) + {s}
    {
      if s in subs {
        assert s in Elements(subs);
      } else {
        assert Elements(subs + [s]) == Elements(subs) + {s};
      }
    }

    /** Returns false when the stage crashes: the dispatcher refuses, or the mailbox that the
        acknowledgement goes to is not `open`. */
    method DoSubscribe(s: SubId, consumer: Pid, partition: Option<int>, open: bool) returns (ok: bool)
      requires Valid()
      modifies this, dispatcher.Object()
      ensures Valid() && consumerSubs == old(consumerSubs)
      ensures match Outlets.DoSubscribe(old(Producing()), s, consumer, partition, open)
              case Crashed(o) => !ok && Producing() == o && sent == old(sent)
              case Handled(e) => ok && Producing() == e.outlet && sent == old(sent) + e.sends
    {
      ok := Enlist(s, consumer, partition);
      ok := ok && open;
      if ok {
        Acknowledge(s, consumer);
      }
    }

    method Acknowledge(s: SubId, consumer: Pid)
      requires Valid()
      modifies this`outputBuffer, this`sent, dispatcher.Object()
      ensures Valid()
      ensures var e := Flush(old(Producing()));
              Producing() == e.outlet && sent == old(sent) + ([Send(consumer, SubscribeAck(s))] + e.sends)
    {
      ghost var rest := Flush(Producing());
      sent := sent + [Send(consumer, SubscribeAck(s))];
      FlushBuffer();
      Assoc(old(sent), [Send(consumer, SubscribeAck(s))], rest.sends);
    }

    method AskDispatcher(s: SubId, count: int)
      modifies dispatcher.Object()
      ensures Producing() == Asked(old(Producing()), s, count)
    {
      match dispatcher
      case OfDemand(d) => var _ := d.Ask(s, count);
      case OfBroadcast(b) => var _ := b.Ask(s, count);
      case OfPartition(p) => var _ := p.Ask(s, count);
    }

    /** The loop `while total_pending() > 0`; `batches` are the answers of
        `handle_demand`, in the order it is called. */
    method ProduceOnDemand(batches: seq<seq<Event>>)
      requires Valid()
      modifies this`outputBuffer, this`sent, dispatcher.Object()
      ensures Valid()
      ensures var e := Produce(old(Producing()), batches); Producing() == e.outlet && sent == old(sent) + e.sends
    {
      ghost var goal, before := Produce(Producing(), batches), sent;
      var k := 0;
      assert batches[0..] == batches;
      var pending := TotalPending();
      while pending > 0
        invariant 0 <= k <= |batches| && Valid() && pending == Pending(Producing())
        invariant ToCome(batches[k..], before, goal)
        decreases |batches| - k
      {
        var events := if k < |batches| then batches[k] else [];
        if events == [] {
          break;
        }
        assert batches[k..] == [events] + batches[k + 1..];
        DispatchAnswer(events, batches[k + 1..], before, goal);
        k := k + 1;
        pending := TotalPending();
      }
      Units(sent);
    }

    /** With the answers `rest` to come, the loop ends up with `goal`. */
    ghost predicate ToCome(rest: seq<seq<Event>>, before: seq<Send>, goal: Effect)
      requires Valid()
      reads this, dispatcher.Object()
    {
      var e := Produce(Producing(), rest);
      goal.outlet == e.outlet && before + goal.sends == sent + e.sends
    }

    /** One answer of `handle_demand` is dispatched; `rest` are those to come. */
    method DispatchAnswer(events: seq<Event>, ghost rest: seq<seq<Event>>,
                          ghost before: seq<Send>, ghost goal: Effect)
      requires Valid() && events != [] && Pending(Producing()) > 0
      requires ToCome([events] + rest, before, goal)
      modifies this`outputBuffer, this`sent, dispatcher.Object()
      ensures Valid() && ToCome(rest, before, goal)
    {
      ghost var now := Producing();
      ProduceOnce(now, [events] + rest);
      assert ([events] + rest)[1..] == rest;
      DispatchEvents(events);
      Assoc(old(sent), Outlets.DispatchEvents(now, events).sends, Produce(Producing(), rest).sends);
    }

    lemma ProduceOnce(o: Outlet, batches: seq<seq<Event>>)
      requires Pending(o) > 0 && batches != [] && batches[0] != []
      ensures var e := Outlets.DispatchEvents(o, batches[0]);
              var rest := Produce(e.outlet, batches[1..]);
              Produce(o, batches).outlet == rest.outlet && Produce(o, batches).sends == e.sends + rest.sends
    {
    }

    method DoDemand(s: SubId, count: int, batches: seq<seq<Event>>)
      requires Valid()
      modifies this`outputBuffer, this`sent, dispatcher.Object()
      ensures Valid()
      ensures var e := Outlets.DoDemand(old(Producing()), s, count, kind.Producer?, batches);
              Producing() == e.outlet && sent == old(sent) + e.sends
    {
      Units(sent);
      if s !in subs {
        return;
      }
      ghost var before := sent;
      AskDispatcher(s, count);
      ghost var flushed := Flush(Producing());
      FlushBuffer();
      if kind.Producer? {
        ProduceOnDemand(batches);
        Assoc(before, flushed.sends, Produce(flushed.outlet, batches).sends);
      }
    }

    method DoCancel(s: SubId)
      requires Valid()
      modifies this, dispatcher.Object()
      ensures Valid() && sent == old(sent)
      ensures if s in old(subs)
              then Producing() == Outlets.DoCancel(old(Producing()), s) && consumerSubs == old(consumerSubs)
              else Producing() == old(Producing()) && consumerSubs == old(consumerSubs) - {s}
    {
      if s in subs {
        WithoutElements(subs, s);
        subs, peer := Without(subs, s), peer - {s};
        match dispatcher {
          case OfDemand(d) => d.Cancel(s);
          case OfBroadcast(b) => b.Cancel(s);
          case OfPartition(p) => p.Cancel(s);
        }
        return;
      }
      consumerSubs := consumerSubs - {s};
    }

    /** Asks the peer of a held subscription for `count` more events. */
    method SendDemand(s: SubId, count: int)
      requires s in consumerSubs
      modifies this`consumerSubs, this`sent
      ensures var r := Network.SendDemand(s, old(consumerSubs)[s], count);
              consumerSubs == old(consumerSubs)[s := r.0] && sent == old(sent) + r.1
    {
      Units(sent);
      if count <= 0 {
        return;
      }
      var info := consumerSubs[s];
      consumerSubs := consumerSubs[s := info.(inFlight := info.inFlight + count)];
      sent := sent + [Send(info.peer, Demand(s, count))];
    }

    method DoSubscribeAck(s: SubId)
      modifies this`consumerSubs, this`sent
      ensures var r := Network.DoSubscribeAck(old(consumerSubs), s); consumerSubs == r.0 && sent == old(sent) + r.1
    {
      Units(sent);
      if s in consumerSubs {
        SendDemand(s, consumerSubs[s].maxDemand);
      }
    }

    /** Asks for more once `in_flight` is below `min_demand` or used up. */
    method RefillUpstream(s: SubId)
      requires s in consumerSubs
      modifies this`consumerSubs, this`sent
      ensures var r := Refill(s, old(consumerSubs)[s]);
              consumerSubs == old(consumerSubs)[s := r.0] && sent == old(sent) + r.1
    {
      Units(sent);
      var info := consumerSubs[s];
      if info.inFlight < info.minDemand || info.inFlight == 0 {
        SendDemand(s, info.maxDemand - info.inFlight);
      }
    }

    /** `produced` is the answer of `handle_events`. */
    method DoEvents(s: SubId, batch: seq<Event>, produced: seq<Event>)
      requires Valid()
      modifies this, dispatcher.Object()
      ensures Valid()
      ensures var r := Network.DoEvents(old(Producing()), old(consumerSubs), s, batch, produced);
              Producing() == r.0.outlet && consumerSubs == r.1 && sent == old(sent) + r.2
    {
      ghost var before := sent;
      Units(before);
      if s !in consumerSubs {
        return;
      }
      var info := consumerSubs[s];
      info := info.(inFlight := Max(0, info.inFlight - |batch|));
      consumerSubs := consumerSubs[s := info];
      ghost var routed := Outlets.DispatchEvents(Producing(), produced).sends;
      DispatchEvents(produced);
      RefillUpstream(s);
      Assoc(before, routed, Refill(s, info).1);
    }

    /** Handling any stage message is the reaction the network model takes for it. */
    method HandleMessage(msg: Message, answers: Answers) returns (alive: bool)
      requires Valid()
      modifies this, dispatcher.Object()
      ensures Valid()
      ensures var r := React(Node(kind, old(Producing()), old(consumerSubs), []), msg, answers);
              Producing() == r.outlet && consumerSubs == r.intake && sent == old(sent) + r.sends && alive == r.alive
    {
      Units(sent);
      alive := true;
      match msg
      case Subscribe(s, sender, partition) => alive := DoSubscribe(s, sender, partition, answers.open);
      case SubscribeAck(s) => DoSubscribeAck(s);
      case Demand(s, count) => DoDemand(s, count, answers.batches);
      case Events(s, batch) => DoEvents(s, batch, answers.produced);
      case Cancel(s) => DoCancel(s);
    }

    /** `subscribe_to`, under a freshly generated id. */
    method SubscribeTo(self: Pid, producer: Pid, s: SubId, maxDemand: int, minDemand: int, partition: Option<int>)
      modifies this`consumerSubs, this`sent
      ensures consumerSubs == old(consumerSubs)[s := Info(producer, maxDemand, minDemand, 0)]
      ensures sent == old(sent) + [Send(producer, Subscribe(s, self, partition))]
    {
      consumerSubs := consumerSubs[s := Info(producer, maxDemand, minDemand, 0)];
      sent := sent + [Send(producer, Subscribe(s, self, partition))];
    }

    /** Forgets the subscription before anything is sent; a middle stage drops its buffer. */
    method CancelSubscription(s: SubId)
      requires Valid()
      modifies this`consumerSubs, this`outputBuffer, this`sent
      ensures Valid()
      ensures if s !in old(consumerSubs) then
                consumerSubs == old(consumerSubs) && Producing() == old(Producing()) && sent == old(sent)
              else
                && consumerSubs == old(consumerSubs) - {s}
                && Producing() == old(Producing()).(buffer := if kind.ProducerConsumer? then [] else old(outputBuffer))
                && sent == old(sent) + [Send(old(consumerSubs)[s].peer, Cancel(s))]
    {
      if s !in consumerSubs {
        return;
      }
      var info := consumerSubs[s];
      consumerSubs := consumerSubs - {s};
      if kind.ProducerConsumer? {
        outputBuffer := [];
      }
      sent := sent + [Send(info.peer, Cancel(s))];
    }
  }
}
