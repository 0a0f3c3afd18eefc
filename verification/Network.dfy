/** Any number of stages wired by any number of subscriptions, each with one FIFO
    mailbox. One step hands the oldest message of one mailbox to its stage, which
    handles it to the end; or a consumer subscribes or cancels; or a stage dies. */
module Network {
  import opened Identifiers
  import opened Seqs
  import opened Wrappers

  import opened Dispatch
  import opened Outlets
  import opened Tables

  /** The consumer-side `_SubscriptionInfo`. */
  datatype Info = Info(peer: Pid, maxDemand: int, minDemand: int, inFlight: int)

  type Intake = map<SubId, Info>

  datatype Kind = Producer | Consumer | ProducerConsumer

  /** One stage with its mailbox: `outlet` is its producer side, `intake` its `_consumer_subs`. */
  datatype Node = Node(kind: Kind, outlet: Outlet, intake: Intake, box: seq<Message>)

  datatype Ends = Ends(consumer: Pid, producer: Pid)

  /** `ends` and `acked` are history: who made each subscription with whom, and which
      subscriptions have seen their SubscribeAck. */
  datatype System = System(nodes: map<Pid, Node>, running: set<Pid>, ends: map<SubId, Ends>, acked: set<SubId>)

  /** What the callbacks answer while one message is handled, and whether the mailbox that a
      SubscribeAck goes to is open. */
  datatype Answers = Answers(batches: seq<seq<Event>>, produced: seq<Event>, open: bool)

  datatype Reaction = Reaction(outlet: Outlet, intake: Intake, sends: seq<Send>, alive: bool)

  /** `_send_demand` */
  function SendDemand(s: SubId, info: Info, count: int): (Info, seq<Send>) {
    if count <= 0 then (info, [])
    else (info.(inFlight := info.inFlight + count), [Send(info.peer, Demand(s, count))])
  }

  function DoSubscribeAck(intake: Intake, s: SubId): (Intake, seq<Send>) {
    if s !in intake then (intake, [])
    else
      var (info, sends) := SendDemand(s, intake[s], intake[s].maxDemand);
      (intake[s := info], sends)
  }

  /** The refill at the end of `_do_events`. */
  function Refill(s: SubId, info: Info): (Info, seq<Send>) {
    if info.inFlight < info.minDemand || info.inFlight == 0
    then SendDemand(s, info, info.maxDemand - info.inFlight)
    else (info, [])
  }

  function DoEvents(o: Outlet, intake: Intake, s: SubId, batch: seq<Event>, produced: seq<Event>)
    : (Effect, Intake, seq<Send>)
  {
    if s !in intake then (Nothing(o), intake, [])
    else
      var e := DispatchEvents(o, produced);
      var (info, demand) := Refill(s, intake[s].(inFlight := Max(0, intake[s].inFlight - |batch|)));
      (e, intake[s := info], e.sends + demand)
  }

  /** `_handle_message` */
  ghost function React(n: Node, msg: Message, answers: Answers): Reaction {
    match msg
    case Subscribe(s, sender, partition) =>
      (match DoSubscribe(n.outlet, s, sender, partition, answers.open)
       case Crashed(o) => Reaction(o, n.intake, [], false)
       case Handled(e) => Reaction(e.outlet, n.intake, e.sends, true))
    case SubscribeAck(s) =>
      var (intake, sends) := DoSubscribeAck(n.intake, s);
      Reaction(n.outlet, intake, sends, true)
    case Demand(s, count) =>
      var e := DoDemand(n.outlet, s, count, n.kind.Producer?, answers.batches);
      Reaction(e.outlet, n.intake, e.sends, true)
    case Events(s, batch) =>
      var (e, intake, sends) := DoEvents(n.outlet, n.intake, s, batch, answers.produced);
      Reaction(e.outlet, intake, sends, true)
    case Cancel(s) =>
      if s in n.outlet.subs then Reaction(DoCancel(n.outlet, s), n.intake, [], true)
      else Reaction(n.outlet, n.intake - {s}, [], true)
  }

  /** Sending appends to the receiver's mailbox. */
  function Post(nodes: map<Pid, Node>, sends: seq<Send>): map<Pid, Node> {
    if sends == [] then nodes
    else if sends[0].to !in nodes then Post(nodes, sends[1..])
    else
      var n := nodes[sends[0].to];
      Post(nodes[sends[0].to := n.(box := n.box + [sends[0].msg])], sends[1..])
  }

  datatype Step =
    | Connect(consumer: Pid, producer: Pid, sub: SubId, maxDemand: int, minDemand: int, partition: Option<int>)
    | Disconnect(consumer: Pid, sub: SubId)
    | Deliver(stage: Pid, answers: Answers)
    | Die(stage: Pid)

  /** Generated subscription ids are fresh; only a running stage takes its next message, and
      only running stages have open mailboxes. */
  ghost predicate Enabled(sys: System, step: Step) {
    match step
    case Connect(c, p, s, _, _, _) => c in sys.nodes && p in sys.nodes && s !in sys.ends
    case Disconnect(c, s) => c in sys.nodes && s in sys.nodes[c].intake
    case Deliver(q, answers) =>
      && q in sys.nodes && q in sys.running && sys.nodes[q].box != []
      && (sys.nodes[q].box[0].Subscribe? ==> (answers.open <==> sys.nodes[q].box[0].sender in sys.running))
    case Die(q) => true
  }

  /** Stage `q` has handled its oldest message with reaction `r`. */
  function Delivered(sys: System, q: Pid, r: Reaction): System
    requires q in sys.nodes && sys.nodes[q].box != []
  {
    var n := sys.nodes[q];
    sys.(nodes := Post(sys.nodes[q := n.(outlet := r.outlet, intake := r.intake, box := n.box[1..])], r.sends),
         running := if r.alive then sys.running else sys.running - {q},
         acked := if n.box[0].SubscribeAck? then sys.acked + {n.box[0].sub} else sys.acked)
  }

  ghost function Next(sys: System, step: Step): System
    requires Enabled(sys, step)
  {
    match step
    case Connect(c, p, s, maxDemand, minDemand, partition) =>
      var n := sys.nodes[c];
      sys.(nodes := Post(sys.nodes[c := n.(intake := n.intake[s := Info(p, maxDemand, minDemand, 0)])],
                         [Send(p, Subscribe(s, c, partition))]),
           ends := sys.ends[s := Ends(c, p)])
    case Disconnect(c, s) =>
      var n := sys.nodes[c];
      var outlet := if n.kind.ProducerConsumer? then n.outlet.(buffer := []) else n.outlet;
      sys.(nodes := Post(sys.nodes[c := n.(intake := n.intake - {s}, outlet := outlet)],
                         [Send(n.intake[s].peer, Cancel(s))]))
    case Deliver(q, answers) =>
      Delivered(sys, q, React(sys.nodes[q], sys.nodes[q].box[0], answers))
    case Die(q) => sys.(running := sys.running - {q})
  }

  // ---------------------------------------------------------------------
  // What a mailbox holds about one subscription
  // ---------------------------------------------------------------------

  /** Subscribe, Demand and Cancel travel up to the producer; SubscribeAck and Events down. */
  predicate Upward(m: Message) {
    m.Subscribe? || m.Demand? || m.Cancel?
  }

  predicate Concerns(m: Message, s: SubId, up: bool) {
    m.sub == s && (Upward(m) <==> up)
  }

  /** The messages about `s` in one direction, in order. */
  function About(box: seq<Message>, s: SubId, up: bool): seq<Message> {
    if box == [] then []
    else if Concerns(box[0], s, up) then [box[0]] + About(box[1..], s, up)
    else About(box[1..], s, up)
  }

  function DemandSum(msgs: seq<Message>): int {
    if msgs == [] then 0 else (if msgs[0].Demand? then msgs[0].count else 0) + DemandSum(msgs[1..])
  }

  /** All events the messages carry, in order. */
  function Content(msgs: seq<Message>): seq<Event> {
    if msgs == [] then []
    else if msgs[0].Events? then msgs[0].batch + Content(msgs[1..])
    else Content(msgs[1..])
  }

  function EventCount(msgs: seq<Message>): nat {
    |Content(msgs)|
  }

  /** The messages `sends` puts into the mailbox of `q`. */
  function MailTo(sends: seq<Send>, q: Pid): seq<Message> {
    if sends == [] then []
    else if sends[0].to == q then [sends[0].msg] + MailTo(sends[1..], q)
    else MailTo(sends[1..], q)
  }

  lemma {:induction false} AboutConcat(a: seq<Message>, b: seq<Message>, s: SubId, up: bool)
    ensures About(a + b, s, up) == About(a, s, up) + About(b, s, up)
  {
    if a == [] {
      Units(b);
      Units(About(b, s, up));
    } else {
      AboutConcat(a[1..], b, s, up);
      ConcatHead(a, b);
      Assoc([a[0]], About(a[1..], s, up), About(b, s, up));
    }
  }

  lemma {:induction false} DemandSumConcat(a: seq<Message>, b: seq<Message>)
    ensures DemandSum(a + b) == DemandSum(a) + DemandSum(b)
  {
    if a == [] {
      Units(b);
    } else {
      DemandSumConcat(a[1..], b);
      ConcatHead(a, b);
    }
  }

  lemma {:induction false} ContentConcat(a: seq<Message>, b: seq<Message>)
    ensures Content(a + b) == Content(a) + Content(b)
    ensures EventCount(a + b) == EventCount(a) + EventCount(b)
  {
    if a == [] {
      Units(b);
      Units(Content(b));
    } else {
      ContentConcat(a[1..], b);
      ConcatHead(a, b);
      if a[0].Events? {
        Assoc(a[0].batch, Content(a[1..]), Content(b));
      }
    }
  }

  lemma {:induction false} MailConcat(a: seq<Send>, b: seq<Send>, q: Pid)
    ensures MailTo(a + b, q) == MailTo(a, q) + MailTo(b, q)
  {
    if a == [] {
      Units(b);
      Units(MailTo(b, q));
    } else {
      MailConcat(a[1..], b, q);
      ConcatHead(a, b);
      Assoc([a[0].msg], MailTo(a[1..], q), MailTo(b, q));
    }
  }

  /** Posting changes mailboxes only, each by the mail addressed to it. */
  lemma {:induction false} PostDelivers(nodes: map<Pid, Node>, sends: seq<Send>)
    ensures Post(nodes, sends).Keys == nodes.Keys
    ensures forall q :: q in nodes ==> Post(nodes, sends)[q] == nodes[q].(box := nodes[q].box + MailTo(sends, q))
    decreases |sends|
  {
    if sends == [] {
      assert forall q :: q in nodes ==> nodes[q].box + [] == nodes[q].box;
    } else {
      var to := sends[0].to;
      var nodes1 := if to in nodes then nodes[to := nodes[to].(box := nodes[to].box + [sends[0].msg])] else nodes;
      PostDelivers(nodes1, sends[1..]);
      forall q | q in nodes
        ensures nodes1[q].box + MailTo(sends[1..], q) == nodes[q].box + MailTo(sends, q)
      {
        assert nodes[q].box + [sends[0].msg] + MailTo(sends[1..], q)
          == nodes[q].box + ([sends[0].msg] + MailTo(sends[1..], q));
        assert [] + MailTo(sends[1..], q) == MailTo(sends[1..], q);
      }
    }
  }

  // ---------------------------------------------------------------------
  // The mail a producer-side effect sends
  // ---------------------------------------------------------------------

  ghost predicate OnlyEvents(msgs: seq<Message>) {
    forall i :: 0 <= i < |msgs| ==> msgs[i].Events? && msgs[i].batch != []
  }

  ghost predicate OnlyDemands(msgs: seq<Message>) {
    forall i :: 0 <= i < |msgs| ==> msgs[i].Demand? && 1 <= msgs[i].count
  }

  /** To `q` and about `s`, the sends hold exactly the events routed to `s`, in order,
      and only if `q` is the peer of `s`; nothing travels up. */
  ghost predicate CarriesAbout(peer: map<SubId, Pid>, sends: seq<Send>, slices: seq<Slice>, q: Pid, s: SubId) {
    && About(MailTo(sends, q), s, true) == []
    && var down := About(MailTo(sends, q), s, false);
       && OnlyEvents(down)
       && Content(down) == if s in peer && peer[s] == q then BatchFor(slices, s) else []
  }

  ghost predicate Carries(peer: map<SubId, Pid>, sends: seq<Send>, slices: seq<Slice>) {
    forall q, s :: CarriesAbout(peer, sends, slices, q, s)
  }

  lemma {:induction false} SendsForCarries(subs: seq<SubId>, peer: map<SubId, Pid>, slices: seq<Slice>, q: Pid,
                                           s: SubId)
    requires Distinct(subs)
    ensures var mail := MailTo(SendsFor(subs, peer, slices), q);
            && About(mail, s, true) == [] && OnlyEvents(About(mail, s, false))
            && Content(About(mail, s, false))
               == if s in subs && s in peer && peer[s] == q then BatchFor(slices, s) else []
  {
    if subs != [] {
      SendsForCarries(subs[1..], peer, slices, q, s);
      var batch := BatchFor(slices, subs[0]);
      var first := if batch != [] && subs[0] in peer then [Send(peer[subs[0]], Events(subs[0], batch))] else [];
      var rest := SendsFor(subs[1..], peer, slices);
      var mail1 := MailTo(first, q);
      MailConcat(first, rest, q);
      AboutConcat(mail1, MailTo(rest, q), s, true);
      AboutConcat(mail1, MailTo(rest, q), s, false);
      ContentConcat(About(mail1, s, false), About(MailTo(rest, q), s, false));
      FirstCarries(subs[0], batch, peer, q, s);
    }
  }

  /** The message to one subscriber, if there is one. */
  lemma FirstCarries(sub: SubId, batch: seq<Event>, peer: map<SubId, Pid>, q: Pid, s: SubId)
    ensures var first := if batch != [] && sub in peer then [Send(peer[sub], Events(sub, batch))] else [];
            var mail := MailTo(first, q);
            && About(mail, s, true) == [] && OnlyEvents(About(mail, s, false))
            && Content(About(mail, s, false)) == if s == sub && s in peer && peer[s] == q then batch else []
  {
    if batch != [] && sub in peer {
      assert MailTo([Send(peer[sub], Events(sub, batch))], q) == if peer[sub] == q then [Events(sub, batch)] else [];
      assert About([Events(sub, batch)], s, false) == if s == sub then [Events(sub, batch)] else [];
      assert Content([Events(sub, batch)]) == batch;
    }
  }

  lemma DispatchCarries(o: Outlet, events: seq<Event>)
    requires Valid(o)
    ensures Carries(o.peer, DispatchEvents(o, events).sends, DispatchEvents(o, events).slices)
  {
    var e := DispatchEvents(o, events);
    forall q, s ensures CarriesAbout(o.peer, e.sends, e.slices, q, s) {
      if events != [] && o.subs != [] {
        SendsForCarries(o.subs, o.peer, e.slices, q, s);
        assert s in o.peer <==> s in Elements(o.subs);
      }
    }
  }

  lemma CarriesConcat(peer: map<SubId, Pid>, a: seq<Send>, sa: seq<Slice>, b: seq<Send>, sb: seq<Slice>)
    requires Carries(peer, a, sa) && Carries(peer, b, sb)
    ensures Carries(peer, a + b, sa + sb)
  {
    forall q, s ensures CarriesAbout(peer, a + b, sa + sb, q, s) {
      assert CarriesAbout(peer, a, sa, q, s) && CarriesAbout(peer, b, sb, q, s);
      MailConcat(a, b, q);
      AboutConcat(MailTo(a, q), MailTo(b, q), s, true);
      AboutConcat(MailTo(a, q), MailTo(b, q), s, false);
      ContentConcat(About(MailTo(a, q), s, false), About(MailTo(b, q), s, false));
      BatchForConcat(sa, sb, s);
    }
  }

  lemma {:induction false} ProduceCarries(o: Outlet, batches: seq<seq<Event>>)
    requires Valid(o)
    ensures Carries(o.peer, Produce(o, batches).sends, Produce(o, batches).slices)
    decreases |batches|
  {
    if Pending(o) <= 0 || batches == [] || batches[0] == [] {
      DispatchCarries(o, []);
    } else {
      var step := DispatchEvents(o, batches[0]);
      DispatchCarries(o, batches[0]);
      DispatchAccounts(o, batches[0]);
      ProduceCarries(step.outlet, batches[1..]);
      var rest := Produce(step.outlet, batches[1..]);
      CarriesConcat(o.peer, step.sends, step.slices, rest.sends, rest.slices);
    }
  }

  lemma DemandCarries(o: Outlet, s: SubId, count: int, isProducer: bool, batches: seq<seq<Event>>)
    requires Valid(o) && (s in o.subs ==> 0 <= count)
    ensures var e := DoDemand(o, s, count, isProducer, batches); Carries(o.peer, e.sends, e.slices)
  {
    if s !in o.subs {
      DispatchCarries(o, []);
    } else {
      DemandAccounts(o, s, count, false, []);
      var o1 := Asked(o, s, count);
      DispatchCarries(o1.(buffer := []), o1.buffer);
      var flushed := Flush(o1);
      FlushAccounts(o1);
      if isProducer {
        ProduceCarries(flushed.outlet, batches);
        var rest := Produce(flushed.outlet, batches);
        CarriesConcat(o.peer, flushed.sends, flushed.slices, rest.sends, rest.slices);
      }
    }
  }
}
