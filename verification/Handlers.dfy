/** What each stage message does to the system, in terms of tables and mailboxes, and how much
    credit a consumer keeps out. */
module Handlers {
  import opened Identifiers
  import opened Seqs
  import opened Wrappers

  import opened Credit
  import opened CreditRuns
  import opened DemandRuns
  import opened Network
  import opened Outlets
  import opened Tables

  /** The mailbox of `x` once stage `q` has taken its oldest message. */
  function Rest(sys: System, q: Pid, x: Pid): seq<Message>
    requires Ready(sys, q) && x in sys.nodes
  {
    if x == q then sys.nodes[x].box[1..] else sys.nodes[x].box
  }

  /** Only node `q` changed, apart from mailboxes. */
  ghost predicate OnlyNode(sys: System, sys': System, q: Pid) {
    && q in sys.nodes && sys'.nodes.Keys == sys.nodes.Keys && sys'.ends == sys.ends
    && sys'.nodes[q] == sys.nodes[q].(outlet := sys'.nodes[q].outlet, intake := sys'.nodes[q].intake,
                                      box := sys'.nodes[q].box)
    && (forall x :: x in sys.nodes && x != q ==> sys'.nodes[x] == sys.nodes[x].(box := sys'.nodes[x].box))
  }

  lemma DeliveredNodes(sys: System, q: Pid, r: Reaction)
    requires Ready(sys, q)
    ensures var sys' := Delivered(sys, q, r);
            && OnlyNode(sys, sys', q)
            && sys'.nodes[q].outlet == r.outlet && sys'.nodes[q].intake == r.intake
            && (forall x :: x in sys.nodes ==> sys'.nodes[x].box == Rest(sys, q, x) + MailTo(r.sends, x))
  {
    var n := sys.nodes[q];
    PostDelivers(sys.nodes[q := n.(outlet := r.outlet, intake := r.intake, box := n.box[1..])], r.sends);
  }

  /** One Demand, or none. */
  function AskIf(asked: bool, s: SubId, count: int): seq<Message> {
    if asked then [Demand(s, count)] else []
  }

  // ---------------------------------------------------------------------
  // SubscribeAck
  // ---------------------------------------------------------------------

  /** The consumer of a subscription it still holds takes the SubscribeAck: all of
      `max_demand` is then in flight, exactly that is asked of the producer, and nothing else
      changes or is sent. */
  lemma AckIsAnswered(start: System, steps: seq<Step>, q: Pid, answers: Answers)
    requires Initial(start) && Ready(Run(start, steps), q) && Run(start, steps).nodes[q].box[0].SubscribeAck?
    requires Run(start, steps).nodes[q].box[0].sub in Run(start, steps).nodes[q].intake
    ensures var sys := Run(start, steps);
            var n, s, sys' := sys.nodes[q], sys.nodes[q].box[0].sub, Next(sys, Deliver(q, answers));
            var max := n.intake[s].maxDemand;
            && OnlyNode(sys, sys', q) && s in sys'.acked && s in sys.ends && sys'.running == sys.running
            && sys'.nodes[q].outlet == n.outlet
            && sys'.nodes[q].intake == n.intake[s := n.intake[s].(inFlight := Max(0, max))]
            && (forall x :: x in sys.nodes ==>
                  sys'.nodes[x].box == Rest(sys, q, x) + AskIf(0 < max && x == sys.ends[s].producer, s, max))
  {
    var sys := Run(start, steps);
    InitialInv(start);
    RunKeeps(start, steps);
    AckAnswered(sys, q, answers);
  }

  lemma AckAnswered(sys: System, q: Pid, answers: Answers)
    requires Inv(sys) && Ready(sys, q) && sys.nodes[q].box[0].SubscribeAck?
    requires sys.nodes[q].box[0].sub in sys.nodes[q].intake
    ensures var n, s, sys' := sys.nodes[q], sys.nodes[q].box[0].sub, Next(sys, Deliver(q, answers));
            var max := n.intake[s].maxDemand;
            && OnlyNode(sys, sys', q) && s in sys'.acked && s in sys.ends && sys'.running == sys.running
            && sys'.nodes[q].outlet == n.outlet
            && sys'.nodes[q].intake == n.intake[s := n.intake[s].(inFlight := Max(0, max))]
            && (forall x :: x in sys.nodes ==>
                  sys'.nodes[x].box == Rest(sys, q, x) + AskIf(0 < max && x == sys.ends[s].producer, s, max))
  {
    var n := sys.nodes[q];
    var s := n.box[0].sub;
    AckedIsIdle(sys, q, s);
    var info := n.intake[s];
    var r := React(n, n.box[0], answers);
    assert r.outlet == n.outlet && r.intake == n.intake[s := info.(inFlight := Max(0, info.maxDemand))];
    DeliveredNodes(sys, q, r);
    forall x | x in sys.nodes
      ensures MailTo(r.sends, x) == AskIf(0 < info.maxDemand && x == sys.ends[s].producer, s, info.maxDemand)
    {
      if 0 < info.maxDemand {
        MailOne(info.peer, Demand(s, info.maxDemand), x);
      }
    }
  }

  /** A subscription about to be acknowledged has nothing in flight. */
  lemma AckedIsIdle(sys: System, q: Pid, s: SubId)
    requires Inv(sys) && Ready(sys, q) && sys.nodes[q].box[0] == SubscribeAck(s) && s in sys.nodes[q].intake
    ensures s in sys.ends && sys.ends[s].consumer == q
    ensures sys.nodes[q].intake[s].inFlight == 0 && sys.nodes[q].intake[s].peer == sys.ends[s].producer
  {
    assert SubInv(sys, s);
    HeadIsAddressed(sys, q, s);
    assert AddressedAt(sys, s, q);
    assert Held(sys, s) && PhaseOf(sys, s);
    assert DownOf(sys, s)[0] == SubscribeAck(s);
  }

  // ---------------------------------------------------------------------
  // Events
  // ---------------------------------------------------------------------

  /** What is left in flight after a batch, and whether that calls for more. */
  function Spent(info: Info, batch: seq<Event>): int {
    info.inFlight - |batch|
  }

  predicate RunsLow(info: Info, batch: seq<Event>) {
    Spent(info, batch) < info.minDemand || Spent(info, batch) == 0
  }

  /** A consumer takes events of a subscription it holds: what is left in flight stays if it
      is at least `min_demand` and not 0; otherwise it is brought back to `max_demand` by
      asking the producer for exactly the difference. The events produced are dispatched
      first. Of no other subscription is anything asked. */
  lemma EventsAreRefilled(start: System, steps: seq<Step>, q: Pid, answers: Answers)
    requires Initial(start) && Ready(Run(start, steps), q) && Run(start, steps).nodes[q].box[0].Events?
    requires Run(start, steps).nodes[q].box[0].sub in Run(start, steps).nodes[q].intake
    ensures var sys := Run(start, steps);
            var n, m, sys' := sys.nodes[q], sys.nodes[q].box[0], Next(sys, Deliver(q, answers));
            var s, info := m.sub, n.intake[m.sub];
            var low, ask := RunsLow(info, m.batch), info.maxDemand - Spent(info, m.batch);
            && OnlyNode(sys, sys', q) && s in sys.ends && sys'.running == sys.running
            && 0 <= Spent(info, m.batch) < info.maxDemand
            && sys'.nodes[q].intake
               == n.intake[s := info.(inFlight := if low then info.maxDemand else Spent(info, m.batch))]
            && sys'.nodes[q].outlet == DispatchEvents(n.outlet, answers.produced).outlet
            && Posted(sys, sys', q, DispatchEvents(n.outlet, answers.produced).sends, low, sys.ends[s].producer, s, ask)
            && AsksUp(sys, sys', low, sys.ends[s].producer, s, ask)
  {
    var sys := Run(start, steps);
    InitialInv(start);
    RunKeeps(start, steps);
    var n, m := sys.nodes[q], sys.nodes[q].box[0];
    var info := n.intake[m.sub];
    EventsRefilled(sys, q, answers);
    assert SoundAt(n, true);
    PostedAsksUp(sys, Next(sys, Deliver(q, answers)), q, answers.produced, RunsLow(info, m.batch),
                 sys.ends[m.sub].producer, m.sub, info.maxDemand - Spent(info, m.batch));
  }

  /** About `s'` only the one Demand goes up. */
  ghost predicate AsksUp(sys: System, sys': System, asked: bool, p: Pid, s: SubId, ask: int) {
    forall x, s' :: x in sys.nodes ==>
      x in sys'.nodes
      && About(sys'.nodes[x].box, s', true)
         == About(sys.nodes[x].box, s', true) + AskIf(asked && s' == s && x == p, s, ask)
  }

  lemma PostedAsksUp(sys: System, sys': System, q: Pid, produced: seq<Event>, asked: bool, p: Pid, s: SubId, ask: int)
    requires Ready(sys, q) && sys.nodes[q].box[0].Events? && Valid(sys.nodes[q].outlet)
    requires Posted(sys, sys', q, DispatchEvents(sys.nodes[q].outlet, produced).sends, asked, p, s, ask)
    ensures AsksUp(sys, sys', asked, p, s, ask)
  {
    var o := sys.nodes[q].outlet;
    forall x, s' | x in sys.nodes
      ensures x in sys'.nodes
      ensures About(sys'.nodes[x].box, s', true)
           == About(sys.nodes[x].box, s', true) + AskIf(asked && s' == s && x == p, s, ask)
    {
      RoutingSendsDown(o, produced, x, s');
      PostedUp(sys, sys', q, DispatchEvents(o, produced).sends, asked, p, s, ask, x, s');
    }
  }

  lemma HeldEventsBounds(sys: System, q: Pid)
    requires Inv(sys) && Ready(sys, q) && sys.nodes[q].box[0].Events?
    requires sys.nodes[q].box[0].sub in sys.nodes[q].intake
    ensures var m := sys.nodes[q].box[0];
            var info := sys.nodes[q].intake[m.sub];
            && m.sub in sys.ends && sys.ends[m.sub].consumer == q && info.peer == sys.ends[m.sub].producer
            && 0 <= Spent(info, m.batch) < info.maxDemand
  {
    var n := sys.nodes[q];
    var m := n.box[0];
    var s := m.sub;
    assert SubInv(sys, s);
    HeadIsAddressed(sys, q, s);
    assert AddressedAt(sys, s, q);
    assert Held(sys, s) && PhaseOf(sys, s);
    var down := DownOf(sys, s);
    assert down[0] == m;
    LiveEvents(InfoOf(sys, s), PendingOf(sys, s), m.batch, UpOf(sys, s), About(n.box[1..], s, false), s,
               PendingOf(sys, s), []);
    assert m.batch != [];
  }

  /** Every mailbox gets what `sends` has for it, and that of `p` then a Demand if `asked`. */
  ghost predicate Posted(sys: System, sys': System, q: Pid, sends: seq<Send>, asked: bool, p: Pid, s: SubId, ask: int)
    requires Ready(sys, q)
  {
    forall x :: x in sys.nodes ==>
      x in sys'.nodes && sys'.nodes[x].box == Rest(sys, q, x) + MailTo(sends, x) + AskIf(asked && x == p, s, ask)
  }

  /** The reaction to Events of a held subscription, within its bounds. */
  lemma EventsReact(n: Node, s: SubId, batch: seq<Event>, answers: Answers, r: Reaction)
    requires s in n.intake && 0 <= Spent(n.intake[s], batch) < n.intake[s].maxDemand
    requires r == React(n, Events(s, batch), answers)
    ensures var info, low, e := n.intake[s], RunsLow(n.intake[s], batch), DispatchEvents(n.outlet, answers.produced);
            && r.alive && r.outlet == e.outlet
            && r.intake == n.intake[s := info.(inFlight := if low then info.maxDemand else Spent(info, batch))]
            && (forall x :: MailTo(r.sends, x)
                         == MailTo(e.sends, x) + AskIf(low && x == info.peer, s, info.maxDemand - Spent(info, batch)))
  {
    var info := n.intake[s];
    EventsReaction(n, s, batch, answers);
    forall x {
      RefillLast(DispatchEvents(n.outlet, answers.produced).sends, s, info, info.(inFlight := Spent(info, batch)),
                 batch, x);
    }
  }

  lemma PostedAfter(sys: System, q: Pid, r: Reaction, sends: seq<Send>, asked: bool, p: Pid, s: SubId, ask: int)
    requires Ready(sys, q)
    requires forall x :: MailTo(r.sends, x) == MailTo(sends, x) + AskIf(asked && x == p, s, ask)
    ensures Posted(sys, Delivered(sys, q, r), q, sends, asked, p, s, ask)
  {
    DeliveredNodes(sys, q, r);
    forall x | x in sys.nodes
      ensures Rest(sys, q, x) + MailTo(r.sends, x)
           == Rest(sys, q, x) + MailTo(sends, x) + AskIf(asked && x == p, s, ask)
    {
      Assoc(Rest(sys, q, x), MailTo(sends, x), AskIf(asked && x == p, s, ask));
    }
  }

  /** Up goes the Demand alone, if the stage took Events and `sends` has nothing that goes up. */
  lemma PostedUp(sys: System, sys': System, q: Pid, sends: seq<Send>, asked: bool, p: Pid, s: SubId, ask: int,
                 x: Pid, s': SubId)
    requires Ready(sys, q) && sys.nodes[q].box[0].Events? && Posted(sys, sys', q, sends, asked, p, s, ask)
    requires x in sys.nodes && x in sys'.nodes && About(MailTo(sends, x), s', true) == []
    ensures About(sys'.nodes[x].box, s', true)
         == About(sys.nodes[x].box, s', true) + AskIf(asked && s' == s && x == p, s, ask)
  {
    var asks := AskIf(asked && x == p, s, ask);
    AboutConcat(Rest(sys, q, x) + MailTo(sends, x), asks, s', true);
    AboutConcat(Rest(sys, q, x), MailTo(sends, x), s', true);
    Units(About(Rest(sys, q, x), s', true));
    assert About(asks, s', true) == AskIf(asked && s' == s && x == p, s, ask);
    HeadGoesDown(sys, q, x, s');
  }

  lemma EventsRefilled(sys: System, q: Pid, answers: Answers)
    requires Inv(sys) && Ready(sys, q) && sys.nodes[q].box[0].Events?
    requires sys.nodes[q].box[0].sub in sys.nodes[q].intake
    ensures var n, m, sys' := sys.nodes[q], sys.nodes[q].box[0], Next(sys, Deliver(q, answers));
            var s, info := m.sub, n.intake[m.sub];
            var low, ask := RunsLow(info, m.batch), info.maxDemand - Spent(info, m.batch);
            && OnlyNode(sys, sys', q) && s in sys.ends && sys'.running == sys.running
            && 0 <= Spent(info, m.batch) < info.maxDemand
            && sys'.nodes[q].intake
               == n.intake[s := info.(inFlight := if low then info.maxDemand else Spent(info, m.batch))]
            && sys'.nodes[q].outlet == DispatchEvents(n.outlet, answers.produced).outlet
            && Posted(sys, sys', q, DispatchEvents(n.outlet, answers.produced).sends, low, sys.ends[s].producer, s, ask)
  {
    var n, m := sys.nodes[q], sys.nodes[q].box[0];
    var s, info := m.sub, n.intake[m.sub];
    HeldEventsBounds(sys, q);
    var r := React(n, m, answers);
    EventsReact(n, s, m.batch, answers, r);
    DeliveredNodes(sys, q, r);
    PostedAfter(sys, q, r, DispatchEvents(n.outlet, answers.produced).sends, RunsLow(info, m.batch), info.peer, s,
                info.maxDemand - Spent(info, m.batch));
  }

  /** Routing sends nothing up. */
  lemma RoutingSendsDown(o: Outlet, produced: seq<Event>, x: Pid, s: SubId)
    requires Valid(o)
    ensures About(MailTo(DispatchEvents(o, produced).sends, x), s, true) == []
  {
    var e := DispatchEvents(o, produced);
    DispatchCarries(o, produced);
    assert CarriesAbout(o.peer, e.sends, e.slices, x, s);
  }

  /** The refill is sent last. */
  lemma RefillLast(sends: seq<Send>, s: SubId, info: Info, spent: Info, batch: seq<Event>, x: Pid)
    requires spent == info.(inFlight := Spent(info, batch)) && Spent(info, batch) < info.maxDemand
    ensures MailTo(sends + Refill(s, spent).1, x)
         == MailTo(sends, x) + AskIf(RunsLow(info, batch) && x == info.peer, s, info.maxDemand - Spent(info, batch))
  {
    MailConcat(sends, Refill(s, spent).1, x);
    if RunsLow(info, batch) {
      MailOne(info.peer, Demand(s, info.maxDemand - Spent(info, batch)), x);
    }
  }

  lemma HeadGoesDown(sys: System, q: Pid, x: Pid, s: SubId)
    requires Ready(sys, q) && x in sys.nodes && sys.nodes[q].box[0].Events?
    ensures About(sys.nodes[x].box, s, true) == About(Rest(sys, q, x), s, true)
  {
  }

  // ---------------------------------------------------------------------
  // How much is kept in flight
  // ---------------------------------------------------------------------

  /** At least `min_demand` and at least one, if `max_demand` allows that much. */
  predicate Level(info: Info) {
    1 <= info.maxDemand && info.minDemand <= info.maxDemand ==> Max(1, info.minDemand) <= info.inFlight
  }

  ghost predicate Levels(sys: System) {
    forall s {:trigger Held(sys, s)} :: Held(sys, s) && s in sys.acked ==> Level(InfoOf(sys, s))
  }

  /** Handling a message changes the entry of no other subscription, and that of its own only
      if it is a SubscribeAck or Events. */
  lemma ReactIntake(n: Node, m: Message, answers: Answers, s: SubId)
    requires m.sub != s || !(m.SubscribeAck? || m.Events?)
    ensures var r := React(n, m, answers);
            s in r.intake ==> s in n.intake && r.intake[s] == n.intake[s]
  {
  }

  lemma DeliverLevel(sys: System, q: Pid, answers: Answers, s: SubId)
    requires Inv(sys) && Levels(sys) && Enabled(sys, Deliver(q, answers))
    requires Held(Next(sys, Deliver(q, answers)), s) && s in Next(sys, Deliver(q, answers)).acked
    ensures Level(InfoOf(Next(sys, Deliver(q, answers)), s))
  {
    var n := sys.nodes[q];
    var m := n.box[0];
    var r := React(n, m, answers);
    DeliveredNodes(sys, q, r);
    if m.sub == s && m.SubscribeAck? && s in n.intake {
      AckAnswered(sys, q, answers);
      AckedIsIdle(sys, q, s);
    } else if m.sub == s && m.Events? && s in n.intake {
      HeldEventsBounds(sys, q);
      EventsRefilled(sys, q, answers);
    } else {
      AckedBefore(sys, q, r, answers, s);
    }
  }

  lemma AckedBefore(sys: System, q: Pid, r: Reaction, answers: Answers, s: SubId)
    requires Inv(sys) && Levels(sys) && Ready(sys, q) && r == React(sys.nodes[q], sys.nodes[q].box[0], answers)
    requires var m := sys.nodes[q].box[0];
             !(m.sub == s && (m.SubscribeAck? || m.Events?) && s in sys.nodes[q].intake)
    requires Held(Delivered(sys, q, r), s) && s in Delivered(sys, q, r).acked
    ensures Level(InfoOf(Delivered(sys, q, r), s))
  {
    var n, m := sys.nodes[q], sys.nodes[q].box[0];
    DeliveredNodes(sys, q, r);
    assert SubInv(sys, s);
    if m.sub == s {
      HeadIsAddressed(sys, q, s);
    }
    if !(m.sub == s && (m.SubscribeAck? || m.Events?)) {
      ReactIntake(n, m, answers, s);
    }
    assert Held(sys, s) && s in sys.acked && InfoOf(Delivered(sys, q, r), s) == InfoOf(sys, s);
  }

  lemma StepLevels(sys: System, step: Step)
    requires Inv(sys) && Levels(sys) && Enabled(sys, step)
    ensures Levels(Next(sys, step))
  {
    var sys' := Next(sys, step);
    forall s | Held(sys', s) && s in sys'.acked ensures Level(InfoOf(sys', s)) {
      if step.Deliver? {
        DeliverLevel(sys, step.stage, step.answers, s);
      } else {
        SameLevel(sys, step, s);
        assert Held(sys, s);
      }
    }
  }

  /** Whatever else happens leaves the entries of acknowledged subscriptions alone. */
  lemma SameLevel(sys: System, step: Step, s: SubId)
    requires Inv(sys) && Enabled(sys, step) && !step.Deliver?
    requires Held(Next(sys, step), s) && s in Next(sys, step).acked
    ensures Held(sys, s) && s in sys.acked && InfoOf(Next(sys, step), s) == InfoOf(sys, s)
  {
    assert SubInv(sys, s);
    if step.Connect? {
      ConnectedLevel(sys, step, Next(sys, step), s);
    } else if step.Disconnect? {
      DisconnectTells(sys, step.consumer, step.sub);
    }
  }

  lemma ConnectedLevel(sys: System, step: Step, sys': System, s: SubId)
    requires step.Connect? && Enabled(sys, step) && sys' == Next(sys, step)
    requires (s !in sys.ends ==> s !in sys.acked) && Held(sys', s) && s in sys'.acked
    ensures Held(sys, s) && s in sys.acked && InfoOf(sys', s) == InfoOf(sys, s)
  {
    ConnectAsks(sys, step.consumer, step.producer, step.sub, step.maxDemand, step.minDemand, step.partition);
  }

  lemma {:induction false} RunLevels(sys: System, steps: seq<Step>)
    requires Inv(sys) && Levels(sys)
    ensures Levels(Run(sys, steps))
    decreases |steps|
  {
    if steps != [] {
      if Enabled(sys, steps[0]) {
        StepKeeps(sys, steps[0]);
        StepLevels(sys, steps[0]);
      }
      RunLevels(if Enabled(sys, steps[0]) then Next(sys, steps[0]) else sys, steps[1..]);
    }
  }

  /** In every reachable state an acknowledged subscription that its consumer holds, with
      `max_demand >= 1` and `min_demand <= max_demand`, has at least one event and at least
      `min_demand` events in flight. */
  lemma DemandStaysUp(start: System, steps: seq<Step>, s: SubId)
    requires Initial(start) && Held(Run(start, steps), s) && s in Run(start, steps).acked
    requires 1 <= InfoOf(Run(start, steps), s).maxDemand
    requires InfoOf(Run(start, steps), s).minDemand <= InfoOf(Run(start, steps), s).maxDemand
    ensures Max(1, InfoOf(Run(start, steps), s).minDemand) <= InfoOf(Run(start, steps), s).inFlight
  {
    InitialInv(start);
    RunLevels(start, steps);
  }

  // ---------------------------------------------------------------------
  // Subscribing and cancelling, on the consumer's side
  // ---------------------------------------------------------------------

  /** The bounds are entered as given, with nothing in flight; the producer is sent the
      request, and nobody anything else. */
  lemma ConnectAsks(sys: System, c: Pid, p: Pid, s: SubId, max: int, min: int, partition: Option<int>)
    requires Enabled(sys, Connect(c, p, s, max, min, partition))
    ensures var sys' := Next(sys, Connect(c, p, s, max, min, partition));
            && sys'.nodes.Keys == sys.nodes.Keys && sys'.ends == sys.ends[s := Ends(c, p)]
            && sys'.running == sys.running && sys'.acked == sys.acked
            && (forall x :: x in sys.nodes ==>
                  && sys'.nodes[x].outlet == sys.nodes[x].outlet
                  && sys'.nodes[x].intake == (if x == c then sys.nodes[c].intake[s := Info(p, max, min, 0)]
                                              else sys.nodes[x].intake)
                  && sys'.nodes[x].box == sys.nodes[x].box + if x == p then [Subscribe(s, c, partition)] else [])
  {
    var nodes1 := sys.nodes[c := sys.nodes[c].(intake := sys.nodes[c].intake[s := Info(p, max, min, 0)])];
    PostDelivers(nodes1, [Send(p, Subscribe(s, c, partition))]);
    forall x | x in sys.nodes ensures MailTo([Send(p, Subscribe(s, c, partition))], x)
                                   == if x == p then [Subscribe(s, c, partition)] else []
    {
      MailOne(p, Subscribe(s, c, partition), x);
    }
  }

  /** The subscription is forgotten, and with it the buffer of a stage that both consumes and
      produces; the producer is told, and nobody anything else. */
  lemma DisconnectTells(sys: System, c: Pid, s: SubId)
    requires Enabled(sys, Disconnect(c, s))
    ensures var sys' := Next(sys, Disconnect(c, s));
            var n, p := sys.nodes[c], sys.nodes[c].intake[s].peer;
            && sys'.nodes.Keys == sys.nodes.Keys
            && sys'.ends == sys.ends && sys'.running == sys.running && sys'.acked == sys.acked
            && sys'.nodes[c].intake == n.intake - {s}
            && sys'.nodes[c].outlet.buffer == (if n.kind.ProducerConsumer? then [] else n.outlet.buffer)
            && sys'.nodes[c].outlet == n.outlet.(buffer := sys'.nodes[c].outlet.buffer)
            && (forall x :: x in sys.nodes ==>
                  && (x != c ==> sys'.nodes[x] == sys.nodes[x].(box := sys'.nodes[x].box))
                  && sys'.nodes[x].box == sys.nodes[x].box + if x == p then [Cancel(s)] else [])
  {
    var n, p := sys.nodes[c], sys.nodes[c].intake[s].peer;
    var outlet := if n.kind.ProducerConsumer? then n.outlet.(buffer := []) else n.outlet;
    PostDelivers(sys.nodes[c := n.(intake := n.intake - {s}, outlet := outlet)], [Send(p, Cancel(s))]);
    forall x | x in sys.nodes ensures MailTo([Send(p, Cancel(s))], x) == if x == p then [Cancel(s)] else [] {
      MailOne(p, Cancel(s), x);
    }
  }

  // ---------------------------------------------------------------------
  // On the producer's side
  // ---------------------------------------------------------------------

  /** The life of a subscription that its consumer holds: its Subscribe waits; or the producer
      stopped without acknowledging it; or its SubscribeAck waits; or it is acknowledged, with
      Demands on the way up and Events on the way down. Nothing is in flight before. */
  lemma SubscriptionLife(start: System, steps: seq<Step>, s: SubId)
    requires Initial(start) && Held(Run(start, steps), s)
    ensures var sys := Run(start, steps);
            var up, down, p := UpOf(sys, s), DownOf(sys, s), sys.ends[s].producer;
            var subscribed := s in sys.nodes[p].outlet.subs;
            && (s !in sys.acked ==> InfoOf(sys, s).inFlight == 0 && PendingOf(sys, s) == 0)
            && if s in sys.acked then subscribed && OnlyDemands(up) && OnlyEvents(down)
               else || (|up| == 1 && up[0].Subscribe? && down == [] && !subscribed)
                    || (up == [] && down == [] && p !in sys.running)
                    || (up == [] && down == [SubscribeAck(s)] && subscribed)
  {
    var sys := Run(start, steps);
    InitialInv(start);
    RunKeeps(start, steps);
    assert SubInv(sys, s) && PhaseOf(sys, s);
    var down := DownOf(sys, s);
    if |down| == 1 && down[0].SubscribeAck? {
      AboutIsAbout(sys.nodes[sys.ends[s].consumer].box, s, false);
      assert down[0].sub == s;
      assert down == [down[0]];
    }
  }

  lemma {:induction false} AboutIsAbout(box: seq<Message>, s: SubId, up: bool)
    ensures forall i :: 0 <= i < |About(box, s, up)| ==> About(box, s, up)[i].sub == s
  {
    if box != [] {
      AboutIsAbout(box[1..], s, up);
    }
  }

  predicate TurnsAway(sys: System, q: Pid)
    requires Ready(sys, q) && sys.nodes[q].box[0].Subscribe?
  {
    var n, m := sys.nodes[q], sys.nodes[q].box[0];
    (n.outlet.policy.ByPartition? && m.partition.None?) || m.sender !in sys.running
  }

  /** The subscriber of message `m` is entered in outlet `o`, for its partition if partitions
      matter, with no demand; every other subscriber is still there. */
  ghost predicate Welcomed(before: Outlet, m: Message, o: Outlet)
    requires m.Subscribe?
  {
    && m.sub in o.subs && m.sub in o.demand && o.demand[m.sub] == 0
    && o.peer == before.peer[m.sub := m.sender]
    && (forall x :: x in before.subs ==> x in o.subs)
    && (before.policy.ByPartition? ==>
          m.partition.Some? && o.partitionMap == before.partitionMap[m.partition.value := m.sub])
  }

  /** A stage takes a Subscribe: without a partition where one is needed, or if the consumer
      has stopped, the stage ends. Otherwise the subscriber is welcomed; about the new
      subscription its SubscribeAck is sent, and no event. */
  lemma SubscribeIsAnswered(start: System, steps: seq<Step>, q: Pid, answers: Answers)
    requires Initial(start) && Ready(Run(start, steps), q) && Run(start, steps).nodes[q].box[0].Subscribe?
    requires Enabled(Run(start, steps), Deliver(q, answers))
    ensures var sys := Run(start, steps);
            var m, sys' := sys.nodes[q].box[0], Next(sys, Deliver(q, answers));
            && OnlyNode(sys, sys', q) && sys'.nodes[q].intake == sys.nodes[q].intake
            && (TurnsAway(sys, q) ==> sys'.running == sys.running - {q})
            && (!TurnsAway(sys, q) ==>
                  && sys'.running == sys.running
                  && Welcomed(sys.nodes[q].outlet, m, sys'.nodes[q].outlet)
                  && (forall x :: x in sys.nodes ==>
                        About(sys'.nodes[x].box, m.sub, false) == About(Rest(sys, q, x), m.sub, false)
                          + (if x == m.sender then [SubscribeAck(m.sub)] else [])))
  {
    var sys := Run(start, steps);
    InitialInv(start);
    RunKeeps(start, steps);
    var n, m := sys.nodes[q], sys.nodes[q].box[0];
    assert SubInv(sys, m.sub) && SoundAt(n, true);
    DeliveredNodes(sys, q, React(n, m, answers));
    if TurnsAway(sys, q) {
      SubscriberTurnedAway(n, m, answers);
    } else {
      SubscriberWelcomed(sys, q, answers);
    }
  }

  lemma SubscriberTurnedAway(n: Node, m: Message, answers: Answers)
    requires m.Subscribe? && (Refused(n.outlet, m.partition) || !answers.open)
    ensures var r := React(n, m, answers); !r.alive && r.intake == n.intake
  {
  }

  lemma WelcomedAfter(before: Outlet, m: Message, o: Outlet)
    requires Valid(before) && m.Subscribe? && DoSubscribe(before, m.sub, m.sender, m.partition, true).Handled?
    requires o == DoSubscribe(before, m.sub, m.sender, m.partition, true).effect.outlet
    ensures Welcomed(before, m, o)
  {
    SubscribeAccounts(before, m.sub, m.sender, m.partition);
    SubscribedValid(before, m.sub, m.sender, m.partition);
    FlushAccounts(Subscribed(before, m.sub, m.sender, m.partition));
  }

  lemma SubscriberWelcomed(sys: System, q: Pid, answers: Answers)
    requires Ready(sys, q) && SoundAt(sys.nodes[q], true) && sys.nodes[q].box[0].Subscribe?
    requires !TurnsAway(sys, q) && Enabled(sys, Deliver(q, answers))
    ensures var m, sys' := sys.nodes[q].box[0], Next(sys, Deliver(q, answers));
            && sys'.running == sys.running && sys'.nodes.Keys == sys.nodes.Keys
            && Welcomed(sys.nodes[q].outlet, m, sys'.nodes[q].outlet)
            && (forall x :: x in sys.nodes ==>
                  About(sys'.nodes[x].box, m.sub, false) == About(Rest(sys, q, x), m.sub, false)
                    + (if x == m.sender then [SubscribeAck(m.sub)] else []))
  {
    var n, m := sys.nodes[q], sys.nodes[q].box[0];
    var s, c := m.sub, m.sender;
    var r := React(n, m, answers);
    DeliveredNodes(sys, q, r);
    WelcomedAfter(n.outlet, m, r.outlet);
    SubscribeMail(n, s, c, m.partition, r, q);
    forall x | x in sys.nodes
      ensures About(Rest(sys, q, x) + MailTo(r.sends, x), s, false)
           == About(Rest(sys, q, x), s, false) + (if x == c then [SubscribeAck(s)] else [])
    {
      AboutConcat(Rest(sys, q, x), MailTo(r.sends, x), s, false);
    }
  }

  /** A Demand of an unknown subscription is dropped. */
  lemma StrayDemand(sys: System, q: Pid, answers: Answers)
    requires Ready(sys, q) && sys.nodes[q].box[0].Demand?
    requires sys.nodes[q].box[0].sub !in sys.nodes[q].outlet.subs
    ensures Next(sys, Deliver(q, answers)).nodes == sys.nodes[q := sys.nodes[q].(box := sys.nodes[q].box[1..])]
  {
  }

  /** A stage that is no Producer serves a Demand from its buffer and asks no callback. */
  lemma OthersIgnoreAnswers(sys: System, q: Pid, answers: Answers, other: Answers)
    requires Ready(sys, q) && sys.nodes[q].box[0].Demand? && !sys.nodes[q].kind.Producer?
    ensures Next(sys, Deliver(q, answers)) == Next(sys, Deliver(q, other))
  {
    var n, m := sys.nodes[q], sys.nodes[q].box[0];
    OthersProduceNothing(n.outlet, m.sub, m.count, answers.batches, other.batches);
    assert React(n, m, answers) == React(n, m, other);
  }

  /** A Producer under the demand or the broadcast dispatcher whose callback always answers has
      met all demand once it has handled a Demand. */
  lemma ProducersMeetDemand(sys: System, q: Pid, answers: Answers)
    requires Ready(sys, q) && SoundAt(sys.nodes[q], true) && sys.nodes[q].box[0].Demand?
    requires sys.nodes[q].kind.Producer? && !sys.nodes[q].outlet.policy.ByPartition?
    requires sys.nodes[q].box[0].sub in sys.nodes[q].outlet.subs
    requires forall i :: 0 <= i < |answers.batches| ==> answers.batches[i] != []
    requires var o, m := sys.nodes[q].outlet, sys.nodes[q].box[0];
             Pending(o.(demand := o.demand[m.sub := Get(o.demand, m.sub) + m.count])) <= |answers.batches|
    ensures var sys' := Next(sys, Deliver(q, answers)); q in sys'.nodes && Pending(sys'.nodes[q].outlet) <= 0
  {
    var n, m := sys.nodes[q], sys.nodes[q].box[0];
    assert Pending(React(n, m, answers).outlet) <= 0 by {
      DemandIsMet(n.outlet, m.sub, m.count, answers.batches);
    }
    DeliveredNodes(sys, q, React(n, m, answers));
  }

  /** A producer takes the Cancel of one of its subscribers: it leaves every table; the other
      subscribers, their demand and their partitions stay, in order, as does what waits in the
      buffer; nothing is sent. */
  lemma CancelFrees(sys: System, q: Pid, answers: Answers)
    requires Ready(sys, q) && SoundAt(sys.nodes[q], true) && sys.nodes[q].box[0].Cancel?
    requires sys.nodes[q].box[0].sub in sys.nodes[q].outlet.subs
    ensures var n, s, sys' := sys.nodes[q], sys.nodes[q].box[0].sub, Next(sys, Deliver(q, answers));
            var o := sys'.nodes[q].outlet;
            && OnlyNode(sys, sys', q) && sys'.nodes[q].intake == n.intake && sys'.running == sys.running
            && s !in o.subs && s !in o.peer && s !in o.demand
            && (forall x :: x in o.subs <==> x in n.outlet.subs && x != s)
            && o.peer == n.outlet.peer - {s} && o.demand == n.outlet.demand - {s}
            && (forall k :: k in o.partitionMap <==>
                  k in n.outlet.partitionMap && !(n.outlet.policy.ByPartition? && n.outlet.partitionMap[k] == s))
            && (forall k :: k in o.partitionMap ==> o.partitionMap[k] == n.outlet.partitionMap[k])
            && o.buffer == n.outlet.buffer && o.policy == n.outlet.policy
            && (forall x :: x in sys.nodes ==> sys'.nodes[x].box == Rest(sys, q, x))
  {
    var n, s := sys.nodes[q], sys.nodes[q].box[0].sub;
    var r := React(n, n.box[0], answers);
    DeliveredNodes(sys, q, r);
    CancelValid(n.outlet, s);
    assert s in Elements(n.outlet.subs);
    forall x | x in sys.nodes ensures Rest(sys, q, x) + MailTo(r.sends, x) == Rest(sys, q, x) {
      Units(Rest(sys, q, x));
    }
  }

  /** The Cancel of a subscription that the stage does not serve only makes it forget it as a
      consumer. */
  lemma CancelForgets(sys: System, q: Pid, answers: Answers)
    requires Ready(sys, q) && sys.nodes[q].box[0].Cancel?
    requires sys.nodes[q].box[0].sub !in sys.nodes[q].outlet.subs
    ensures var n := sys.nodes[q];
            Next(sys, Deliver(q, answers)).nodes
            == sys.nodes[q := n.(intake := n.intake - {n.box[0].sub}, box := n.box[1..])]
  {
  }

  // ---------------------------------------------------------------------
  // Stopped stages
  // ---------------------------------------------------------------------

  lemma StepSparesStopped(sys: System, step: Step, q: Pid)
    requires Enabled(sys, step) && q in sys.nodes && q !in sys.running
    ensures var sys' := Next(sys, step);
            q in sys'.nodes && q !in sys'.running && sys.nodes[q].box <= sys'.nodes[q].box
  {
    match step
    case Connect(c, p, s, max, min, partition) => ConnectAsks(sys, c, p, s, max, min, partition);
    case Disconnect(c, s) => DisconnectTells(sys, c, s);
    case Deliver(x, answers) => DeliveredNodes(sys, x, React(sys.nodes[x], sys.nodes[x].box[0], answers));
    case Die(_) =>
  }

  lemma {:induction false} StoppedOverRuns(sys: System, steps: seq<Step>, q: Pid)
    requires q in sys.nodes && q !in sys.running
    ensures var sys' := Run(sys, steps);
            q in sys'.nodes && q !in sys'.running && sys.nodes[q].box <= sys'.nodes[q].box
    decreases |steps|
  {
    if steps != [] {
      if Enabled(sys, steps[0]) {
        StepSparesStopped(sys, steps[0], q);
      }
      StoppedOverRuns(if Enabled(sys, steps[0]) then Next(sys, steps[0]) else sys, steps[1..], q);
    }
  }

  /** A stage that is killed never runs again, and takes nothing more from its mailbox. */
  lemma StoppedTakesNothing(sys: System, q: Pid, steps: seq<Step>)
    requires q in sys.nodes
    ensures var sys' := Run(Next(sys, Die(q)), steps);
            q in sys'.nodes && q !in sys'.running && sys.nodes[q].box <= sys'.nodes[q].box
  {
    StoppedOverRuns(Next(sys, Die(q)), steps, q);
  }
}
