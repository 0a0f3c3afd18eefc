/** What the consumers actually receive: each subscription is a FIFO channel, and a
    line of three stages delivers a prefix of the transformed source stream. */
module Pipeline {
  import opened Identifiers
  import opened Seqs
  import opened Wrappers

  import opened Credit
  import opened CreditRuns
  import opened Dispatch
  import opened Network
  import opened Outlets
  import opened Tables

  /** History of a run: slices routed and events produced by each stage, events handed
      to the consumer of each subscription. */
  datatype Log = Log(routed: map<Pid, seq<Slice>>, made: map<Pid, seq<Event>>, got: map<SubId, seq<Event>>)

  function At<K, V>(m: map<K, seq<V>>, k: K): seq<V> {
    if k in m then m[k] else []
  }

  function Add<K, V>(m: map<K, seq<V>>, k: K, more: seq<V>): map<K, seq<V>> {
    m[k := At(m, k) + more]
  }

  /** The producer-side part of handling one message. */
  ghost function Routing(n: Node, m: Message, answers: Answers): Effect {
    match m
    case Subscribe(s, sender, partition) =>
      (match DoSubscribe(n.outlet, s, sender, partition, answers.open)
       case Crashed(o) => Nothing(o)
       case Handled(e) => e)
    case Demand(s, count) => DoDemand(n.outlet, s, count, n.kind.Producer?, answers.batches)
    case Events(s, batch) =>
      if s in n.intake then DispatchEvents(n.outlet, answers.produced).(produced := answers.produced)
        else Nothing(n.outlet)
    case SubscribeAck(_) => Nothing(n.outlet)
    case Cancel(s) => Nothing(if s in n.outlet.subs then DoCancel(n.outlet, s) else n.outlet)
  }

  ghost function NextLog(sys: System, log: Log, step: Step): Log
    requires Enabled(sys, step)
  {
    if !step.Deliver? then log
    else
      var n := sys.nodes[step.stage];
      var m := n.box[0];
      var e := Routing(n, m, step.answers);
      Log(Add(log.routed, step.stage, e.slices), Add(log.made, step.stage, e.produced),
          if m.Events? && m.sub in n.intake then Add(log.got, m.sub, m.batch) else log.got)
  }

  datatype Traced = Traced(sys: System, log: Log)

  ghost function TracedStep(t: Traced, step: Step): Traced {
    if Enabled(t.sys, step) then Traced(Next(t.sys, step), NextLog(t.sys, t.log, step)) else t
  }

  ghost function TracedRun(t: Traced, steps: seq<Step>): Traced
    decreases |steps|
  {
    if steps == [] then t else TracedRun(TracedStep(t, steps[0]), steps[1..])
  }

  ghost predicate Fresh(t: Traced) {
    Initial(t.sys) && t.log == Log(map[], map[], map[])
  }

  // ---------------------------------------------------------------------
  // Each subscription is a FIFO channel
  // ---------------------------------------------------------------------

  /** Mail about `s` carries exactly the events routed to `s`, and only to its peer. */
  ghost predicate Conveys(peer: map<SubId, Pid>, sends: seq<Send>, slices: seq<Slice>, s: SubId) {
    && (forall q :: Content(About(MailTo(sends, q), s, false))
                    == if s in peer && peer[s] == q then BatchFor(slices, s) else [])
    && (s !in peer ==> BatchFor(slices, s) == [])
  }

  lemma CarriesConveys(peer: map<SubId, Pid>, before: seq<Send>, sends: seq<Send>, after: seq<Send>, slices: seq<Slice>,
                       s: SubId)
    requires Carries(peer, sends, slices) && (s !in peer ==> BatchFor(slices, s) == [])
    requires |before| <= 1 && |after| <= 1
    requires forall i :: 0 <= i < |before| ==> !before[i].msg.Events?
    requires forall i :: 0 <= i < |after| ==> !after[i].msg.Events?
    ensures Conveys(peer, before + sends + after, slices, s)
  {
    forall q
      ensures Content(About(MailTo(before + sends + after, q), s, false))
           == if s in peer && peer[s] == q then BatchFor(slices, s) else []
    {
      assert CarriesAbout(peer, sends, slices, q, s);
      EventsMail(before + sends, after, s, q);
      EventsMail(before, sends, s, q);
      ContentConcat(About(MailTo(before + sends, q), s, false), About(MailTo(after, q), s, false));
      ContentConcat(About(MailTo(before, q), s, false), About(MailTo(sends, q), s, false));
      NoContent(before, s, q);
      NoContent(after, s, q);
    }
  }

  lemma NoContent(sends: seq<Send>, s: SubId, q: Pid)
    requires |sends| <= 1 && forall i :: 0 <= i < |sends| ==> !sends[i].msg.Events?
    ensures Content(About(MailTo(sends, q), s, false)) == []
  {
    if sends != [] {
      var mail := MailTo(sends, q);
      assert MailTo(sends[1..], q) == [];
      assert mail == if sends[0].to == q then [sends[0].msg] else [];
    }
  }

  lemma SubscribeConveys(n: Node, s0: SubId, sender: Pid, partition: Option<int>, answers: Answers, s: SubId)
    requires SoundAt(n, true)
    ensures var m := Subscribe(s0, sender, partition);
            var r := React(n, m, answers);
            r.alive ==> Conveys(r.outlet.peer, r.sends, Routing(n, m, answers).slices, s)
  {
    var r := React(n, Subscribe(s0, sender, partition), answers);
    if r.alive {
      SubscribeAccounts(n.outlet, s0, sender, partition);
      var rest := SubscribeSplit(n.outlet, s0, sender, partition);
      assert s !in r.outlet.peer ==> s !in Elements(r.outlet.subs);
      CarriesConveys(r.outlet.peer, [Send(sender, SubscribeAck(s0))], rest.sends, [], rest.slices, s);
      Units([Send(sender, SubscribeAck(s0))] + rest.sends);
    }
  }

  lemma DemandConveys(n: Node, s0: SubId, count: int, answers: Answers, s: SubId)
    requires SoundAt(n, true) && 1 <= count
    ensures var r := React(n, Demand(s0, count), answers);
            Conveys(r.outlet.peer, r.sends, Routing(n, Demand(s0, count), answers).slices, s)
  {
    var o := n.outlet;
    var e := DoDemand(o, s0, count, n.kind.Producer?, answers.batches);
    DemandCarries(o, s0, count, n.kind.Producer?, answers.batches);
    if s0 in o.subs {
      DemandAccounts(o, s0, count, n.kind.Producer?, answers.batches);
    }
    assert s !in o.peer ==> s !in Elements(o.subs);
    CarriesConveys(o.peer, [], e.sends, [], e.slices, s);
    Units(e.sends);
  }

  lemma EventsConveys(n: Node, s0: SubId, batch: seq<Event>, answers: Answers, s: SubId)
    requires SoundAt(n, true)
    ensures var r := React(n, Events(s0, batch), answers);
            Conveys(r.outlet.peer, r.sends, Routing(n, Events(s0, batch), answers).slices, s)
  {
    if s0 in n.intake {
      EventsReaction(n, s0, batch, answers);
      var spent := n.intake[s0].(inFlight := Max(0, n.intake[s0].inFlight - |batch|));
      RefillAsksOnce(s0, spent);
      DispatchConveys(n.outlet, answers.produced, Refill(s0, spent).1, s);
    }
  }

  lemma DispatchConveys(o: Outlet, events: seq<Event>, after: seq<Send>, s: SubId)
    requires Valid(o) && |after| <= 1 && forall i :: 0 <= i < |after| ==> !after[i].msg.Events?
    ensures var e := DispatchEvents(o, events);
            e.outlet.peer == o.peer && Conveys(o.peer, e.sends + after, e.slices, s)
  {
    var e := DispatchEvents(o, events);
    DispatchCarries(o, events);
    DispatchAccounts(o, events);
    assert s !in o.peer ==> s !in Elements(o.subs);
    Units(e.sends);
    CarriesConveys(o.peer, [], e.sends, after, e.slices, s);
  }

  lemma ReactConveys(n: Node, m: Message, answers: Answers, s: SubId)
    requires SoundAt(n, true) && (m.Demand? ==> 1 <= m.count)
    ensures var r := React(n, m, answers);
            Conveys(r.outlet.peer, r.sends, Routing(n, m, answers).slices, s)
  {
    match m
    case Subscribe(s0, sender, partition) => SubscribeConveys(n, s0, sender, partition, answers, s);
    case SubscribeAck(s0) =>
      if s0 in n.intake {
        SilentConveys(n.outlet.peer, SendDemand(s0, n.intake[s0], n.intake[s0].maxDemand).1, s);
      }
    case Demand(s0, count) => DemandConveys(n, s0, count, answers, s);
    case Events(s0, batch) => EventsConveys(n, s0, batch, answers, s);
    case Cancel(s0) =>
  }

  lemma SilentConveys(peer: map<SubId, Pid>, sends: seq<Send>, s: SubId)
    requires |sends| <= 1 && forall i :: 0 <= i < |sends| ==> !sends[i].msg.Events?
    ensures Conveys(peer, sends, [], s)
  {
    forall q ensures Content(About(MailTo(sends, q), s, false)) == [] {
      NoContent(sends, s, q);
    }
  }

  /** Everything routed to `s` was handed to its consumer or waits in its mailbox, in order. */
  ghost predicate Channel(t: Traced, s: SubId) {
    && (s !in t.sys.ends ==>
          At(t.log.got, s) == [] && forall x :: x in t.sys.nodes ==> BatchFor(At(t.log.routed, x), s) == [])
    && (Held(t.sys, s) ==>
          BatchFor(At(t.log.routed, t.sys.ends[s].producer), s) == At(t.log.got, s) + Content(DownOf(t.sys, s)))
  }

  /** What stage `q` routes to `s` is what it mails to the consumer of `s`. */
  lemma RoutedIsMailed(sys: System, q: Pid, answers: Answers, s: SubId)
    requires Ready(sys, q) && Inv(sys)
    ensures var n := sys.nodes[q];
            var routed := BatchFor(Routing(n, n.box[0], answers).slices, s);
            var sends := React(n, n.box[0], answers).sends;
            && (s !in sys.ends || q != sys.ends[s].producer ==> routed == [])
            && (s in sys.ends ==> Content(About(MailTo(sends, sys.ends[s].consumer), s, false)) == routed)
  {
    var n := sys.nodes[q];
    var r := React(n, n.box[0], answers);
    var sys' := Delivered(sys, q, r);
    assert SoundAt(n, true);
    ReactConveys(n, n.box[0], answers, s);
    DeliverKeeps(sys, q, answers);
    DeliverNode(sys, q, r, s, q);
    assert SubInv(sys', s) && AddressedAt(sys', s, q);
    PeersAreSubs(sys', q, s);
  }

  /** What the delivery of message `m` hands to the consumer of `s`. */
  function Handed(n: Node, m: Message, s: SubId): seq<Event> {
    if m.Events? && m.sub == s && s in n.intake then m.batch else []
  }

  /** The channel of a held subscription loses the message taken and gains what is routed. */
  lemma DeliverHeldChannel(sys: System, q: Pid, r: Reaction, s: SubId, routed: seq<Event>)
    requires Ready(sys, q) && SubInv(sys, s) && Held(sys, s) && Held(Delivered(sys, q, r), s)
    requires Content(About(MailTo(r.sends, sys.ends[s].consumer), s, false)) == routed
    ensures Content(DownOf(sys, s)) + routed
      == Handed(sys.nodes[q], sys.nodes[q].box[0], s) + Content(DownOf(Delivered(sys, q, r), s))
  {
    var n := sys.nodes[q];
    var c := sys.ends[s].consumer;
    var box := if c == q then n.box[1..] else sys.nodes[c].box;
    var left, mailed := Content(About(box, s, false)), Content(About(MailTo(r.sends, c), s, false));
    DeliverNode(sys, q, r, s, c);
    ContentConcat(About(box, s, false), About(MailTo(r.sends, c), s, false));
    assert Content(DownOf(Delivered(sys, q, r), s)) == left + mailed;
    HandedContent(sys, q, s);
    Assoc(Handed(n, n.box[0], s), left, mailed);
  }

  lemma HandedContent(sys: System, q: Pid, s: SubId)
    requires Ready(sys, q) && Held(sys, s) && SubInv(sys, s)
    ensures var n := sys.nodes[q];
            var c := sys.ends[s].consumer;
            var box := if c == q then n.box[1..] else sys.nodes[c].box;
            Content(DownOf(sys, s)) == Handed(n, n.box[0], s) + Content(About(box, s, false))
  {
    HeadContent(sys, q, s);
    if sys.nodes[q].box[0].sub == s {
      HeadIsAddressed(sys, q, s);
    }
  }

  /** Appending the same to both sides of a channel. */
  lemma ChannelGrows(routed: seq<Event>, got: seq<Event>, waiting: seq<Event>, more: seq<Event>, handed: seq<Event>,
                     waiting': seq<Event>)
    requires routed == got + waiting && waiting + more == handed + waiting'
    ensures routed + more == got + handed + waiting'
  {
    Assoc(got, waiting, more);
    Assoc(got, handed, waiting');
  }

  lemma DeliverLog(t: Traced, q: Pid, answers: Answers, s: SubId)
    requires Enabled(t.sys, Deliver(q, answers))
    ensures var n := t.sys.nodes[q];
            var log := TracedStep(t, Deliver(q, answers)).log;
            var e := Routing(n, n.box[0], answers);
            && At(log.got, s) == At(t.log.got, s) + Handed(n, n.box[0], s)
            && forall x :: BatchFor(At(log.routed, x), s)
                        == BatchFor(At(t.log.routed, x), s) + if x == q then BatchFor(e.slices, s) else []
  {
    var n := t.sys.nodes[q];
    var e := Routing(n, n.box[0], answers);
    BatchForConcat(At(t.log.routed, q), e.slices, s);
    assert At(t.log.got, s) + [] == At(t.log.got, s);
    assert forall x :: BatchFor(At(t.log.routed, x), s) + [] == BatchFor(At(t.log.routed, x), s);
  }

  lemma DeliverChannel(t: Traced, q: Pid, answers: Answers, s: SubId)
    requires Inv(t.sys) && Enabled(t.sys, Deliver(q, answers)) && Channel(t, s)
    ensures Channel(TracedStep(t, Deliver(q, answers)), s)
  {
    var sys := t.sys;
    var m := sys.nodes[q].box[0];
    var r := React(sys.nodes[q], m, answers);
    var e := Routing(sys.nodes[q], m, answers);
    DeliverLog(t, q, answers, s);
    RoutedIsMailed(sys, q, answers, s);
    DeliverNode(sys, q, r, s, q);
    assert SubInv(sys, s) && AddressedAt(sys, s, q);
    if s !in sys.ends {
      if m.sub == s {
        HeadIsAddressed(sys, q, s);
      }
    } else if Held(Delivered(sys, q, r), s) {
      DeliverNode(sys, q, r, s, sys.ends[s].consumer);
      IntakeOnlyShrinks(sys.nodes[q], m, answers, s);
      assert Held(sys, s);
      var routed := BatchFor(e.slices, s);
      DeliverHeldChannel(sys, q, r, s, routed);
      ChannelGrows(BatchFor(At(t.log.routed, sys.ends[s].producer), s), At(t.log.got, s), Content(DownOf(sys, s)),
                   routed, Handed(sys.nodes[q], m, s), Content(DownOf(Delivered(sys, q, r), s)));
    }
  }

  lemma ContentOfHead(box: seq<Message>, s: SubId)
    requires box != []
    ensures Content(About(box, s, false))
         == (if box[0].Events? && box[0].sub == s then box[0].batch else []) + Content(About(box[1..], s, false))
  {
    var rest := About(box[1..], s, false);
    if Concerns(box[0], s, false) {
      ContentConcat([box[0]], rest);
      assert Content([box[0]]) == if box[0].Events? then box[0].batch else [];
    } else {
      Units(Content(rest));
    }
  }

  /** Taking the head of a mailbox takes its content from the front of the channel. */
  lemma HeadContent(sys: System, q: Pid, s: SubId)
    requires Ready(sys, q) && Held(sys, s) && SubInv(sys, s)
    ensures var n := sys.nodes[q];
            var m := n.box[0];
            var c := sys.ends[s].consumer;
            var box := if c == q then n.box[1..] else sys.nodes[c].box;
            Content(DownOf(sys, s)) == (if m.Events? && m.sub == s then m.batch else []) + Content(About(box, s, false))
  {
    ContentOfHead(sys.nodes[q].box, s);
    if sys.ends[s].consumer != q {
      if sys.nodes[q].box[0].sub == s {
        HeadIsAddressed(sys, q, s);
      }
      Units(Content(DownOf(sys, s)));
    }
  }

  lemma PeersAreSubs(sys: System, q: Pid, s: SubId)
    requires Sound(sys) && q in sys.nodes
    ensures s in sys.nodes[q].outlet.peer <==> s in sys.nodes[q].outlet.subs
  {
    assert SoundAt(sys.nodes[q], q in sys.running);
    assert s in Elements(sys.nodes[q].outlet.subs) <==> s in sys.nodes[q].outlet.subs;
  }

  /** Handling a message adds no consumer-side subscription. */
  lemma IntakeOnlyShrinks(n: Node, m: Message, answers: Answers, s: SubId)
    ensures s in React(n, m, answers).intake ==> s in n.intake
  {
  }

  /** Replacing a consumer's own table and posting an upward message leaves the way down alone. */
  lemma PostedDown(sys: System, sys': System, c: Pid, n': Node, p: Pid, m: Message, s: SubId)
    requires c in sys.nodes && n'.box == sys.nodes[c].box && Upward(m)
    requires sys'.nodes == Post(sys.nodes[c := n'], [Send(p, m)])
    ensures sys'.nodes.Keys == sys.nodes.Keys
    ensures forall x :: x in sys.nodes ==>
              About(sys'.nodes[x].box, s, false) == About(sys.nodes[x].box, s, false)
              && sys'.nodes[x].intake == (if x == c then n' else sys.nodes[x]).intake
  {
    PostedAbout(sys.nodes[c := n'], p, m, c, s);
    forall x | x in sys.nodes
      ensures About(sys'.nodes[x].box, s, false) == About(sys.nodes[x].box, s, false)
      ensures sys'.nodes[x].intake == (if x == c then n' else sys.nodes[x]).intake
    {
      PostedAbout(sys.nodes[c := n'], p, m, x, s);
      assert !Concerns(m, s, false);
    }
  }

  lemma ConnectChannel(t: Traced, step: Step, s: SubId)
    requires Inv(t.sys) && Channel(t, s) && Enabled(t.sys, step) && step.Connect?
    ensures Channel(TracedStep(t, step), s)
  {
    var sys := t.sys;
    var n := sys.nodes[step.consumer];
    var n' := n.(intake := n.intake[step.sub := Info(step.producer, step.maxDemand, step.minDemand, 0)]);
    PostedDown(sys, Next(sys, step), step.consumer, n', step.producer,
               Subscribe(step.sub, step.consumer, step.partition), s);
    assert SubInv(sys, s) && AddressedAt(sys, s, step.consumer);
  }

  lemma DisconnectChannel(t: Traced, step: Step, s: SubId)
    requires Inv(t.sys) && Channel(t, s) && Enabled(t.sys, step) && step.Disconnect?
    ensures Channel(TracedStep(t, step), s)
  {
    var sys := t.sys;
    var n := sys.nodes[step.consumer];
    var outlet := if n.kind.ProducerConsumer? then n.outlet.(buffer := []) else n.outlet;
    var n' := n.(intake := n.intake - {step.sub}, outlet := outlet);
    PostedDown(sys, Next(sys, step), step.consumer, n', n.intake[step.sub].peer, Cancel(step.sub), s);
  }

  lemma StepChannel(t: Traced, step: Step, s: SubId)
    requires Inv(t.sys) && Channel(t, s)
    ensures Channel(TracedStep(t, step), s)
  {
    if Enabled(t.sys, step) {
      match step
      case Deliver(q, answers) => DeliverChannel(t, q, answers, s);
      case Die(q) =>
      case Connect(_, _, _, _, _, _) => ConnectChannel(t, step, s);
      case Disconnect(_, _) => DisconnectChannel(t, step, s);
    }
  }

  lemma {:induction false} RunChannel(t: Traced, steps: seq<Step>, s: SubId)
    requires Inv(t.sys) && Channel(t, s)
    ensures Inv(TracedRun(t, steps).sys) && Channel(TracedRun(t, steps), s)
    decreases |steps|
  {
    if steps != [] {
      StepChannel(t, steps[0], s);
      if Enabled(t.sys, steps[0]) {
        StepKeeps(t.sys, steps[0]);
      }
      RunChannel(TracedStep(t, steps[0]), steps[1..], s);
    }
  }

  /** Over every run, whatever the dispatchers: the events handed to the consumer of a
      subscription, followed by those in its mailbox, are exactly the events its
      producer routed to it, in order. */
  lemma SubscriptionIsFifo(start: Traced, steps: seq<Step>, s: SubId)
    requires Fresh(start) && Held(TracedRun(start, steps).sys, s)
    ensures var t := TracedRun(start, steps);
            At(t.log.got, s) + Content(DownOf(t.sys, s)) == BatchFor(At(t.log.routed, t.sys.ends[s].producer), s)
  {
    InitialInv(start.sys);
    RunChannel(start, steps, s);
  }

  // ---------------------------------------------------------------------
  // A demand-dispatching stage is a FIFO
  // ---------------------------------------------------------------------

  /** Stage `x` has routed, in order, what it produced up to its buffer. */
  ghost predicate StageFifo(t: Traced, x: Pid) {
    && x in t.sys.nodes && t.sys.nodes[x].outlet.policy.ByDemand? && OutletRuns.Clear(t.sys.nodes[x].outlet)
    && Flatten(At(t.log.routed, x)) + t.sys.nodes[x].outlet.buffer == At(t.log.made, x)
  }

  /** No step cancels a subscription of `x`. */
  ghost predicate NeverCancels(steps: seq<Step>, x: Pid) {
    forall i :: 0 <= i < |steps| && steps[i].Disconnect? ==> steps[i].consumer != x
  }

  lemma RoutingInOrder(n: Node, m: Message, answers: Answers)
    requires SoundAt(n, true) && n.outlet.policy.ByDemand? && OutletRuns.Clear(n.outlet)
    ensures var e := Routing(n, m, answers);
            OutletRuns.InOrder(e, n.outlet.buffer + e.produced) && e.outlet == React(n, m, answers).outlet
  {
    var o := n.outlet;
    assert o.buffer + [] == o.buffer;
    match m
    case Subscribe(s, sender, partition) =>
      if answers.open { OutletRuns.SubscribeInOrder(o, s, sender, partition); }
    case SubscribeAck(s) =>
    case Demand(s, count) => OutletRuns.DemandInOrder(o, s, count, n.kind.Producer?, answers.batches);
    case Events(s, batch) => OutletRuns.DispatchInOrder(o, answers.produced);
    case Cancel(s) => OutletRuns.CancelClear(o, s);
  }

  lemma StepStageFifo(t: Traced, step: Step, x: Pid)
    requires Inv(t.sys) && StageFifo(t, x) && (step.Disconnect? ==> step.consumer != x)
    ensures StageFifo(TracedStep(t, step), x)
  {
    if Enabled(t.sys, step) {
      var sys := t.sys;
      match step
      case Die(q) =>
      case Connect(c, p, s0, maxDemand, minDemand, partition) =>
        var n := sys.nodes[c];
        PostDelivers(sys.nodes[c := n.(intake := n.intake[s0 := Info(p, maxDemand, minDemand, 0)])],
                     [Send(p, Subscribe(s0, c, partition))]);
      case Disconnect(c, s0) =>
        var n := sys.nodes[c];
        var outlet := if n.kind.ProducerConsumer? then n.outlet.(buffer := []) else n.outlet;
        PostDelivers(sys.nodes[c := n.(intake := n.intake - {s0}, outlet := outlet)],
                     [Send(n.intake[s0].peer, Cancel(s0))]);
      case Deliver(q, answers) =>
        var n := sys.nodes[q];
        var r := React(n, n.box[0], answers);
        PostDelivers(sys.nodes[q := n.(outlet := r.outlet, intake := r.intake, box := n.box[1..])], r.sends);
        if q == x {
          assert SoundAt(n, true);
          var e := Routing(n, n.box[0], answers);
          RoutingInOrder(n, n.box[0], answers);
          var track := OutletRuns.Track(n.outlet, At(t.log.made, x), At(t.log.routed, x), map[]);
          OutletRuns.RecordFifo(track, e);
        }
    }
  }

  lemma {:induction false} RunStageFifo(t: Traced, steps: seq<Step>, x: Pid)
    requires Inv(t.sys) && StageFifo(t, x) && NeverCancels(steps, x)
    ensures StageFifo(TracedRun(t, steps), x)
    decreases |steps|
  {
    if steps != [] {
      StepStageFifo(t, steps[0], x);
      if Enabled(t.sys, steps[0]) {
        StepKeeps(t.sys, steps[0]);
      }
      assert forall i :: 0 <= i < |steps[1..]| ==> steps[1..][i] == steps[i + 1];
      RunStageFifo(TracedStep(t, steps[0]), steps[1..], x);
    }
  }
}
