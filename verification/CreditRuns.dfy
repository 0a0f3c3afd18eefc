/** Every step of the network keeps the credit invariant, so it holds in every
    reachable state; and what follows for flow control. */
module CreditRuns {
  import opened Identifiers
  import opened Seqs
  import opened Wrappers

  import opened Credit
  import opened Dispatch
  import opened Network
  import opened Outlets
  import opened Tables
  import OutletRuns

  // ---------------------------------------------------------------------
  // Stages stay sound
  // ---------------------------------------------------------------------

  /** Whatever is asked for is at least one event. */
  ghost predicate Asks(sends: seq<Send>) {
    forall i :: 0 <= i < |sends| && sends[i].msg.Demand? ==> 1 <= sends[i].msg.count
  }

  lemma {:induction false} SendsForAsks(subs: seq<SubId>, peer: map<SubId, Pid>, slices: seq<Slice>)
    ensures Asks(SendsFor(subs, peer, slices))
  {
    if subs != [] {
      SendsForAsks(subs[1..], peer, slices);
    }
  }

  lemma {:induction false} ProduceAsks(o: Outlet, batches: seq<seq<Event>>)
    ensures Asks(Produce(o, batches).sends)
    decreases |batches|
  {
    if !(Pending(o) <= 0 || batches == [] || batches[0] == []) {
      SendsForAsks(o.subs, o.peer, Serve(o, batches[0]).slices);
      ProduceAsks(DispatchEvents(o, batches[0]).outlet, batches[1..]);
    }
  }

  lemma FlushAsks(o: Outlet)
    ensures Asks(Flush(o).sends)
  {
    SendsForAsks(o.subs, o.peer, Serve(o.(buffer := []), o.buffer).slices);
  }

  lemma ReactAsks(n: Node, m: Message, answers: Answers)
    ensures Asks(React(n, m, answers).sends)
  {
    var o := n.outlet;
    match m
    case Subscribe(s, sender, partition) =>
      if DoSubscribe(o, s, sender, partition, answers.open).Handled? {
        FlushAsks(Subscribed(o, s, sender, partition));
      }
    case SubscribeAck(s) =>
    case Demand(s, count) =>
      FlushAsks(Asked(o, s, count));
      ProduceAsks(Flush(Asked(o, s, count)).outlet, answers.batches);
    case Events(s, batch) => SendsForAsks(o.subs, o.peer, Serve(o, answers.produced).slices);
    case Cancel(s) =>
  }

  lemma {:induction false} MailAsks(sends: seq<Send>, q: Pid)
    requires Asks(sends)
    ensures forall i :: 0 <= i < |MailTo(sends, q)| && MailTo(sends, q)[i].Demand? ==> 1 <= MailTo(sends, q)[i].count
  {
    if sends != [] {
      assert Asks(sends[1..]) by {
        assert forall i :: 0 <= i < |sends[1..]| ==> sends[1..][i] == sends[i + 1];
      }
      MailAsks(sends[1..], q);
    }
  }

  lemma ReactSound(n: Node, m: Message, answers: Answers)
    requires SoundAt(n, true) && (m.Demand? ==> 1 <= m.count)
    ensures var r := React(n, m, answers); SoundAt(n.(outlet := r.outlet, intake := r.intake), r.alive)
  {
    var o := n.outlet;
    match m
    case Subscribe(s, sender, partition) =>
      RegisteredValid(o, s, sender);
      if DoSubscribe(o, s, sender, partition, answers.open).Handled? {
        SubscribeAccounts(o, s, sender, partition);
      }
    case SubscribeAck(s) =>
    case Demand(s, count) =>
      if s in o.subs {
        DemandAccounts(o, s, count, n.kind.Producer?, answers.batches);
      }
    case Events(s, batch) => DispatchAccounts(o, answers.produced);
    case Cancel(s) => CancelValid(o, s);
  }

  lemma DeliverSound(sys: System, q: Pid, answers: Answers)
    requires Ready(sys, q) && Sound(sys)
    ensures Sound(Delivered(sys, q, React(sys.nodes[q], sys.nodes[q].box[0], answers)))
  {
    var n := sys.nodes[q];
    var r := React(n, n.box[0], answers);
    var sys' := Delivered(sys, q, r);
    assert SoundAt(n, true);
    ReactSound(n, n.box[0], answers);
    ReactAsks(n, n.box[0], answers);
    PostDelivers(sys.nodes[q := n.(outlet := r.outlet, intake := r.intake, box := n.box[1..])], r.sends);
    forall x | x in sys'.nodes ensures SoundAt(sys'.nodes[x], x in sys'.running) {
      assert SoundAt(sys.nodes[x], x in sys.running);
      MailAsks(r.sends, x);
    }
  }

  // ---------------------------------------------------------------------
  // Every step keeps the invariant
  // ---------------------------------------------------------------------

  lemma DeliverKeeps(sys: System, q: Pid, answers: Answers)
    requires Ready(sys, q) && Inv(sys)
    ensures Inv(Delivered(sys, q, React(sys.nodes[q], sys.nodes[q].box[0], answers)))
  {
    var n := sys.nodes[q];
    var m := n.box[0];
    var r := React(n, m, answers);
    assert SoundAt(n, true);
    DeliverSound(sys, q, answers);
    forall s ensures SubInv(Delivered(sys, q, r), s) {
      assert SubInv(sys, s);
      if m.sub != s {
        ReactSpares(n, m, answers, s);
        DeliverOther(sys, q, r, s);
      } else {
        match m
        case Subscribe(_, _, _) => DeliverSubscribe(sys, q, answers);
        case SubscribeAck(_) => DeliverAck(sys, q, answers);
        case Demand(_, _) => DeliverDemand(sys, q, answers);
        case Events(_, _) => DeliverEvents(sys, q, answers);
        case Cancel(_) => DeliverCancel(sys, q, answers);
      }
    }
  }

  lemma MailOne(p: Pid, m: Message, x: Pid)
    ensures MailTo([Send(p, m)], x) == if x == p then [m] else []
  {
    assert MailTo([Send(p, m)][1..], x) == [];
  }

  /** After posting one message, the mailboxes seen by subscription `s`. */
  lemma PostedAbout(nodes: map<Pid, Node>, p: Pid, m: Message, x: Pid, s: SubId)
    requires x in nodes
    ensures var nodes' := Post(nodes, [Send(p, m)]);
            && nodes'.Keys == nodes.Keys && nodes'[x] == nodes[x].(box := nodes'[x].box)
            && About(nodes'[x].box, s, true)
               == About(nodes[x].box, s, true) + (if x == p && Concerns(m, s, true) then [m] else [])
            && About(nodes'[x].box, s, false)
               == About(nodes[x].box, s, false) + (if x == p && Concerns(m, s, false) then [m] else [])
  {
    PostDelivers(nodes, [Send(p, m)]);
    MailOne(p, m, x);
    var mail := MailTo([Send(p, m)], x);
    AboutConcat(nodes[x].box, mail, s, true);
    AboutConcat(nodes[x].box, mail, s, false);
    assert About([m], s, true) == if Concerns(m, s, true) then [m] else [];
    assert About([m], s, false) == if Concerns(m, s, false) then [m] else [];
  }

  /** Replacing one node and posting one message about another subscription is nothing to `s`. */
  lemma PostedOther(sys: System, sys': System, c: Pid, n': Node, p: Pid, m: Message, s: SubId)
    requires Sound(sys) && SubInv(sys, s) && c in sys.nodes && m.sub != s
    requires sys'.nodes == Post(sys.nodes[c := n'], [Send(p, m)]) && sys'.running == sys.running
    requires sys'.acked == sys.acked
    requires (s in sys'.ends <==> s in sys.ends) && (s in sys.ends ==> sys'.ends[s] == sys.ends[s])
    requires n'.box == sys.nodes[c].box && (s in n'.intake <==> s in sys.nodes[c].intake)
    requires s in n'.intake ==> n'.intake[s] == sys.nodes[c].intake[s]
    requires n'.outlet == sys.nodes[c].outlet.(buffer := n'.outlet.buffer)
    ensures SubInv(sys', s)
  {
    PostedAbout(sys.nodes[c := n'], p, m, c, s);
    forall x | x in sys.nodes ensures Spares(sys, sys', s, x, [], 0) {
      PostedSpares(sys, sys', c, n', p, m, s, x);
    }
    assert EventCount([]) == 0;
    LeftAloneStaysSound(sys, sys', s, []);
  }

  lemma PostedSpares(sys: System, sys': System, c: Pid, n': Node, p: Pid, m: Message, s: SubId, x: Pid)
    requires Sound(sys) && c in sys.nodes && m.sub != s && x in sys.nodes
    requires sys'.nodes == Post(sys.nodes[c := n'], [Send(p, m)])
    requires n'.box == sys.nodes[c].box && (s in n'.intake <==> s in sys.nodes[c].intake)
    requires s in n'.intake ==> n'.intake[s] == sys.nodes[c].intake[s]
    requires n'.outlet == sys.nodes[c].outlet.(buffer := n'.outlet.buffer)
    ensures x in sys'.nodes && Spares(sys, sys', s, x, [], 0)
  {
    assert SoundAt(sys.nodes[x], x in sys.running);
    PostedAbout(sys.nodes[c := n'], p, m, x, s);
  }

  lemma PostedSound(sys: System, sys': System, c: Pid, n': Node, p: Pid, m: Message)
    requires Sound(sys) && c in sys.nodes && !m.Demand?
    requires sys'.nodes == Post(sys.nodes[c := n'], [Send(p, m)]) && sys'.running == sys.running
    requires n'.box == sys.nodes[c].box && n'.outlet == sys.nodes[c].outlet.(buffer := n'.outlet.buffer)
    ensures Sound(sys')
  {
    PostDelivers(sys.nodes[c := n'], [Send(p, m)]);
    forall x | x in sys'.nodes ensures SoundAt(sys'.nodes[x], x in sys'.running) {
      assert SoundAt(sys.nodes[x], x in sys.running);
      MailOne(p, m, x);
    }
  }

  lemma ConnectKeeps(sys: System, c: Pid, p: Pid, s: SubId, maxDemand: int, minDemand: int, partition: Option<int>)
    requires Inv(sys) && Enabled(sys, Connect(c, p, s, maxDemand, minDemand, partition))
    ensures Inv(Next(sys, Connect(c, p, s, maxDemand, minDemand, partition)))
  {
    var sys' := Next(sys, Connect(c, p, s, maxDemand, minDemand, partition));
    var n := sys.nodes[c];
    var n' := n.(intake := n.intake[s := Info(p, maxDemand, minDemand, 0)]);
    var m := Subscribe(s, c, partition);
    PostedSound(sys, sys', c, n', p, m);
    forall s' ensures SubInv(sys', s') {
      assert SubInv(sys, s');
      if s' != s {
        PostedOther(sys, sys', c, n', p, m, s');
      } else {
        ConnectedSub(sys, c, p, s, maxDemand, minDemand, partition);
      }
    }
  }

  /** The subscription is about its two ends only, and the message is its first. */
  lemma ConnectedAt(sys: System, sys': System, c: Pid, p: Pid, s: SubId, n': Node, m: Message, x: Pid)
    requires SubInv(sys, s) && s !in sys.ends && c in sys.nodes && p in sys.nodes
    requires x in sys.nodes && x in sys'.nodes
    requires m.Subscribe? && m.sub == s && m.sender == c
    requires n' == sys.nodes[c].(intake := n'.intake) && n'.intake.Keys == sys.nodes[c].intake.Keys + {s}
    requires n'.intake[s].peer == p
    requires sys'.nodes == Post(sys.nodes[c := n'], [Send(p, m)]) && sys'.ends == sys.ends[s := Ends(c, p)]
    ensures AddressedAt(sys', s, x)
  {
    PostedAbout(sys.nodes[c := n'], p, m, x, s);
    assert AddressedAt(sys, s, x);
  }

  /** The new subscription starts with its Subscribe on the way. */
  lemma ConnectedSub(sys: System, c: Pid, p: Pid, s: SubId, maxDemand: int, minDemand: int, partition: Option<int>)
    requires Sound(sys) && SubInv(sys, s) && Enabled(sys, Connect(c, p, s, maxDemand, minDemand, partition))
    ensures SubInv(Next(sys, Connect(c, p, s, maxDemand, minDemand, partition)), s)
  {
    var sys' := Next(sys, Connect(c, p, s, maxDemand, minDemand, partition));
    var n' := sys.nodes[c].(intake := sys.nodes[c].intake[s := Info(p, maxDemand, minDemand, 0)]);
    var m := Subscribe(s, c, partition);
    PostedAbout(sys.nodes[c := n'], p, m, c, s);
    PostedAbout(sys.nodes[c := n'], p, m, p, s);
    forall x | x in sys.nodes ensures AddressedAt(sys', s, x) {
      ConnectedAt(sys, sys', c, p, s, n', m, x);
    }
    assert AddressedAt(sys, s, p) && AddressedAt(sys, s, c) && SoundAt(sys.nodes[p], p in sys.running);
    assert s !in Elements(sys.nodes[p].outlet.subs);
  }

  lemma DisconnectedSub(sys: System, sys': System, c: Pid, n': Node, s: SubId)
    requires c in sys.nodes && s in sys.nodes[c].intake && SubInv(sys, s)
    requires sys'.nodes == Post(sys.nodes[c := n'], [Send(sys.nodes[c].intake[s].peer, Cancel(s))])
    requires sys'.ends == sys.ends && sys'.acked == sys.acked
    requires n'.box == sys.nodes[c].box && n'.intake == sys.nodes[c].intake - {s}
    requires n'.outlet == sys.nodes[c].outlet.(buffer := n'.outlet.buffer)
    ensures SubInv(sys', s)
  {
    var p := sys.nodes[c].intake[s].peer;
    assert AddressedAt(sys, s, c);
    PostedAbout(sys.nodes[c := n'], p, Cancel(s), c, s);
    forall x | x in sys.nodes ensures AddressedAt(sys', s, x) {
      PostedAbout(sys.nodes[c := n'], p, Cancel(s), x, s);
      assert AddressedAt(sys, s, x);
      SentByAppend(About(sys.nodes[x].box, s, true), [Cancel(s)], sys.ends[s].consumer);
    }
  }

  lemma DisconnectKeeps(sys: System, c: Pid, s: SubId)
    requires Inv(sys) && Enabled(sys, Disconnect(c, s))
    ensures Inv(Next(sys, Disconnect(c, s)))
  {
    var sys' := Next(sys, Disconnect(c, s));
    var n := sys.nodes[c];
    var outlet := if n.kind.ProducerConsumer? then n.outlet.(buffer := []) else n.outlet;
    var n' := n.(intake := n.intake - {s}, outlet := outlet);
    PostedSound(sys, sys', c, n', n.intake[s].peer, Cancel(s));
    forall s' ensures SubInv(sys', s') {
      assert SubInv(sys, s');
      if s' != s {
        PostedOther(sys, sys', c, n', n.intake[s].peer, Cancel(s), s');
      } else {
        DisconnectedSub(sys, sys', c, n', s);
      }
    }
  }

  lemma DieKeeps(sys: System, q: Pid)
    requires Inv(sys)
    ensures Inv(Next(sys, Die(q)))
  {
    var sys' := Next(sys, Die(q));
    forall x | x in sys'.nodes ensures SoundAt(sys'.nodes[x], x in sys'.running) {
      assert SoundAt(sys.nodes[x], x in sys.running);
    }
    forall s ensures SubInv(sys', s) {
      assert SubInv(sys, s);
      forall x | x in sys.nodes ensures Spares(sys, sys', s, x, [], 0) {
        assert SoundAt(sys.nodes[x], x in sys.running);
        assert About(sys.nodes[x].box, s, false) + [] == About(sys.nodes[x].box, s, false);
      }
      assert EventCount([]) == 0;
      LeftAloneStaysSound(sys, sys', s, []);
    }
  }

  lemma StepKeeps(sys: System, step: Step)
    requires Inv(sys) && Enabled(sys, step)
    ensures Inv(Next(sys, step))
  {
    match step
    case Connect(c, p, s, maxDemand, minDemand, partition) =>
      ConnectKeeps(sys, c, p, s, maxDemand, minDemand, partition);
    case Disconnect(c, s) => DisconnectKeeps(sys, c, s);
    case Deliver(q, answers) => DeliverKeeps(sys, q, answers);
    case Die(q) => DieKeeps(sys, q);
  }

  // ---------------------------------------------------------------------
  // Runs
  // ---------------------------------------------------------------------

  /** Freshly started stages that know nothing of each other. */
  ghost predicate Initial(sys: System) {
    && sys.ends == map[] && sys.acked == {}
    && forall x :: x in sys.nodes ==>
         var n := sys.nodes[x]; n.outlet == NewOutlet(n.outlet.policy) && n.intake == map[] && n.box == []
  }

  /** Steps that cannot be taken are skipped, so every list of steps is a run. */
  ghost function Run(sys: System, steps: seq<Step>): System
    decreases |steps|
  {
    if steps == [] then sys
    else Run(if Enabled(sys, steps[0]) then Next(sys, steps[0]) else sys, steps[1..])
  }

  lemma InitialInv(sys: System)
    requires Initial(sys)
    ensures Inv(sys)
  {
    forall x | x in sys.nodes ensures SoundAt(sys.nodes[x], x in sys.running) {
      assert sys.nodes[x].outlet == NewOutlet(sys.nodes[x].outlet.policy);
    }
    forall s ensures SubInv(sys, s) {
      forall x | x in sys.nodes ensures AddressedAt(sys, s, x) {
        assert sys.nodes[x].box == [] && sys.nodes[x].intake == map[];
      }
    }
  }

  lemma {:induction false} RunKeeps(sys: System, steps: seq<Step>)
    requires Inv(sys)
    ensures Inv(Run(sys, steps))
    decreases |steps|
  {
    if steps != [] {
      if Enabled(sys, steps[0]) {
        StepKeeps(sys, steps[0]);
      }
      RunKeeps(if Enabled(sys, steps[0]) then Next(sys, steps[0]) else sys, steps[1..]);
    }
  }

  /** Credit conservation: in every reachable state, for every subscription its consumer
      still holds and under any mix of dispatchers, `in_flight` equals the Demand counts
      waiting at the producer, plus the producer's table entry, plus the events waiting
      at the consumer; it lies between 0 and `max_demand`; and so do undelivered events. */
  lemma CreditConservation(start: System, steps: seq<Step>, s: SubId)
    requires Initial(start) && Held(Run(start, steps), s)
    ensures var sys := Run(start, steps);
            var info := InfoOf(sys, s);
            && info.inFlight == DemandSum(UpOf(sys, s)) + PendingOf(sys, s) + EventCount(DownOf(sys, s))
            && 0 <= info.inFlight <= Max(0, info.maxDemand)
            && 0 <= PendingOf(sys, s)
            && EventCount(DownOf(sys, s)) <= Max(0, info.maxDemand)
  {
    var sys := Run(start, steps);
    InitialInv(start);
    RunKeeps(start, steps);
    assert SubInv(sys, s) && PhaseOf(sys, s);
    var up, down := UpOf(sys, s), DownOf(sys, s);
    if up != [] && up[0].Subscribe? {
      assert DemandSum(up[1..]) == 0;
    } else if down != [] && down[0].SubscribeAck? {
      assert Content(down[1..]) == [];
    } else if OnlyDemands(up) {
      DemandSumNonNegative(up);
    }
  }

  /** The clamp `max(0, in_flight - len(events))` never bites: a consumer is never
      handed more events than it has in flight. */
  lemma ClampNeverBites(start: System, steps: seq<Step>, q: Pid)
    requires Initial(start) && Ready(Run(start, steps), q)
    requires Run(start, steps).nodes[q].box[0].Events?
    ensures var n := Run(start, steps).nodes[q];
            n.box[0].sub in n.intake ==> 1 <= |n.box[0].batch| <= n.intake[n.box[0].sub].inFlight
  {
    var sys := Run(start, steps);
    InitialInv(start);
    RunKeeps(start, steps);
    var n := sys.nodes[q];
    var s := n.box[0].sub;
    assert SubInv(sys, s);
    HeadIsAddressed(sys, q, s);
    if s in n.intake {
      assert Held(sys, s) && PhaseOf(sys, s);
      assert DownOf(sys, s)[0] == n.box[0];
      LiveEvents(InfoOf(sys, s), PendingOf(sys, s), n.box[0].batch, UpOf(sys, s), About(n.box[1..], s, false), s,
                 PendingOf(sys, s), []);
    }
  }

  /** No credit is ever lost: once nothing about an acknowledged subscription is in
      transit, its producer owes it at least one event. */
  lemma NoLostCredit(start: System, steps: seq<Step>, s: SubId)
    requires Initial(start) && Held(Run(start, steps), s) && s in Run(start, steps).acked
    requires 1 <= InfoOf(Run(start, steps), s).maxDemand
    requires UpOf(Run(start, steps), s) == [] && DownOf(Run(start, steps), s) == []
    ensures 1 <= PendingOf(Run(start, steps), s)
    ensures s in Run(start, steps).nodes[Run(start, steps).ends[s].producer].outlet.subs
  {
    var sys := Run(start, steps);
    InitialInv(start);
    RunKeeps(start, steps);
    assert SubInv(sys, s) && PhaseOf(sys, s);
  }

  // ---------------------------------------------------------------------
  // No stall under the demand dispatcher
  // ---------------------------------------------------------------------

  /** Every demand-dispatching stage buffers only while nobody has demand. */
  ghost predicate AllClear(sys: System) {
    forall x :: x in sys.nodes && sys.nodes[x].outlet.policy.ByDemand? ==> OutletRuns.Clear(sys.nodes[x].outlet)
  }

  lemma ReactClear(n: Node, m: Message, answers: Answers)
    requires SoundAt(n, true) && n.outlet.policy.ByDemand? && OutletRuns.Clear(n.outlet)
    ensures var o := React(n, m, answers).outlet; OutletRuns.Clear(o)
  {
    var o := n.outlet;
    match m
    case Subscribe(s, sender, partition) =>
      OutletRuns.FlushInOrder(Registered(o, s, sender).(demand := o.demand[s := 0]));
    case SubscribeAck(s) =>
    case Demand(s, count) =>
      OutletRuns.FlushInOrder(Asked(o, s, count));
      OutletRuns.ProduceInOrder(Flush(Asked(o, s, count)).outlet, answers.batches);
    case Events(s, batch) => OutletRuns.DispatchInOrder(o, answers.produced);
    case Cancel(s) => OutletRuns.CancelClear(o, s);
  }

  lemma ReactPolicy(n: Node, m: Message, answers: Answers)
    ensures React(n, m, answers).outlet.policy == n.outlet.policy
  {
    match m
    case Subscribe(s, sender, partition) =>
    case SubscribeAck(s) =>
    case Demand(s, count) =>
      OutletRuns.ProduceKeepsSubscribers(Flush(Asked(n.outlet, s, count)).outlet, answers.batches);
    case Events(s, batch) =>
    case Cancel(s) =>
  }

  lemma StepKeepsClear(sys: System, step: Step)
    requires Sound(sys) && AllClear(sys) && Enabled(sys, step)
    ensures AllClear(Next(sys, step))
  {
    var sys' := Next(sys, step);
    match step
    case Connect(c, p, s, maxDemand, minDemand, partition) =>
      var n := sys.nodes[c];
      PostDelivers(sys.nodes[c := n.(intake := n.intake[s := Info(p, maxDemand, minDemand, 0)])],
                   [Send(p, Subscribe(s, c, partition))]);
    case Disconnect(c, s) =>
      var n := sys.nodes[c];
      var outlet := if n.kind.ProducerConsumer? then n.outlet.(buffer := []) else n.outlet;
      PostDelivers(sys.nodes[c := n.(intake := n.intake - {s}, outlet := outlet)], [Send(n.intake[s].peer, Cancel(s))]);
    case Deliver(q, answers) =>
      var n := sys.nodes[q];
      var r := React(n, n.box[0], answers);
      assert SoundAt(n, true);
      ReactPolicy(n, n.box[0], answers);
      if n.outlet.policy.ByDemand? {
        ReactClear(n, n.box[0], answers);
      }
      PostDelivers(sys.nodes[q := n.(outlet := r.outlet, intake := r.intake, box := n.box[1..])], r.sends);
    case Die(q) =>
  }

  lemma {:induction false} RunKeepsClear(sys: System, steps: seq<Step>)
    requires Inv(sys) && AllClear(sys)
    ensures AllClear(Run(sys, steps))
    decreases |steps|
  {
    if steps != [] {
      if Enabled(sys, steps[0]) {
        StepKeeps(sys, steps[0]);
        StepKeepsClear(sys, steps[0]);
      }
      RunKeepsClear(if Enabled(sys, steps[0]) then Next(sys, steps[0]) else sys, steps[1..]);
    }
  }

  /** No stall: under the demand dispatcher, no event sits in the output buffer of a
      producer while it has an acknowledged subscription with `max_demand >= 1` about
      which nothing is in transit. */
  lemma NoEventWaits(start: System, steps: seq<Step>, s: SubId)
    requires Initial(start) && Held(Run(start, steps), s) && s in Run(start, steps).acked
    requires 1 <= InfoOf(Run(start, steps), s).maxDemand
    requires UpOf(Run(start, steps), s) == [] && DownOf(Run(start, steps), s) == []
    requires Run(start, steps).nodes[Run(start, steps).ends[s].producer].outlet.policy.ByDemand?
    ensures Run(start, steps).nodes[Run(start, steps).ends[s].producer].outlet.buffer == []
  {
    InitialInv(start);
    assert AllClear(start) by {
      forall x | x in start.nodes ensures OutletRuns.Clear(start.nodes[x].outlet) {
        assert start.nodes[x].outlet == NewOutlet(start.nodes[x].outlet.policy);
      }
    }
    RunKeepsClear(start, steps);
    NoLostCredit(start, steps, s);
  }
}
