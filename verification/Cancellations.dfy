/** A cancelled subscription is over: once its producer has handled the Cancel, it is in no
    table again, and no message about it is sent again. */
module Cancellations {
  import opened Identifiers
  import opened Seqs
  import opened Wrappers

  import opened Credit
  import opened CreditRuns
  import opened Handlers
  import opened Network
  import opened Outlets
  import opened Tables

  ghost predicate NoCancel(up: seq<Message>) {
    forall i :: 0 <= i < |up| ==> !up[i].Cancel?
  }

  /** The Cancel is on its way, behind everything else; or it was handled. */
  ghost predicate Closing(up: seq<Message>, subscribed: bool) {
    if up == [] then !subscribed
    else up[|up| - 1].Cancel? && forall i :: 0 <= i < |up| - 1 ==> !up[i].Cancel?
  }

  predicate Ended(sys: System, s: SubId) {
    && s in sys.ends && sys.ends[s].consumer in sys.nodes && sys.ends[s].producer in sys.nodes
    && s !in sys.nodes[sys.ends[s].consumer].intake
  }

  function UpOfEnded(sys: System, s: SubId): seq<Message>
    requires Ended(sys, s)
  {
    About(sys.nodes[sys.ends[s].producer].box, s, true)
  }

  function DownOfEnded(sys: System, s: SubId): seq<Message>
    requires Ended(sys, s)
  {
    About(sys.nodes[sys.ends[s].consumer].box, s, false)
  }

  predicate StillServes(sys: System, s: SubId)
    requires Ended(sys, s)
  {
    s in sys.nodes[sys.ends[s].producer].outlet.subs
  }

  /** Every subscription that its consumer gave up. */
  ghost predicate AllClosing(sys: System) {
    forall s {:trigger Ended(sys, s)} :: Ended(sys, s) ==> Closing(UpOfEnded(sys, s), StillServes(sys, s))
  }

  /** The head of what is on its way up was handled. */
  lemma ClosingTail(up: seq<Message>, subscribed: bool, subscribed': bool)
    requires Closing(up, subscribed) && up != [] && (up[0].Cancel? ==> !subscribed')
    ensures Closing(up[1..], subscribed')
  {
    var rest := up[1..];
    assert forall i :: 0 <= i < |rest| ==> rest[i] == up[i + 1];
  }

  // ---------------------------------------------------------------------
  // One delivery
  // ---------------------------------------------------------------------

  /** Handling a message forgets a subscription only if it is its Cancel. */
  lemma ReactKeepsIntake(n: Node, m: Message, answers: Answers, s: SubId)
    requires s in n.intake && !(m.Cancel? && m.sub == s)
    ensures s in React(n, m, answers).intake
  {
  }

  lemma ReactGainsNothing(n: Node, m: Message, answers: Answers, s: SubId)
    requires s !in n.intake
    ensures s !in React(n, m, answers).intake
  {
  }

  /** About a subscription not held here, handling its own message sends nothing up, and
      nothing at all if the message came down. */
  lemma OwnMessage(n: Node, m: Message, answers: Answers, x: Pid)
    requires SoundAt(n, true) && m.sub !in n.intake && (m.Demand? ==> 1 <= m.count)
    ensures var r := React(n, m, answers);
            && About(MailTo(r.sends, x), m.sub, true) == []
            && (!Upward(m) ==> r.sends == [] && r.outlet == n.outlet)
  {
    var r := React(n, m, answers);
    match m
    case Subscribe(s, c, partition) =>
      if r.alive {
        SubscribeMail(n, s, c, partition, r, x);
      }
    case SubscribeAck(_) =>
    case Demand(s, count) =>
      DemandCarries(n.outlet, s, count, n.kind.Producer?, answers.batches);
      DemandKeepsPeers(n.outlet, s, count, n.kind.Producer?, answers.batches);
      assert CarriesAbout(n.outlet.peer, r.sends,
                          DoDemand(n.outlet, s, count, n.kind.Producer?, answers.batches).slices, x, s);
    case Events(_, _) =>
    case Cancel(_) =>
  }

  lemma DemandKeepsPeers(o: Outlet, s: SubId, count: int, isProducer: bool, batches: seq<seq<Event>>)
    requires Valid(o) && 0 <= count
    ensures SameSubscribers(o, DoDemand(o, s, count, isProducer, batches).outlet)
  {
    if s in o.subs {
      DemandAccounts(o, s, count, isProducer, batches);
    }
  }

  /** A delivery that is not about `s`. */
  lemma OtherDelivered(sys: System, q: Pid, answers: Answers, s: SubId)
    requires Inv(sys) && Enabled(sys, Deliver(q, answers)) && sys.nodes[q].box[0].sub != s && Ended(sys, s)
    ensures var sys' := Next(sys, Deliver(q, answers));
            && Ended(sys', s) && UpOfEnded(sys', s) == UpOfEnded(sys, s)
            && (StillServes(sys', s) <==> StillServes(sys, s))
            && (!StillServes(sys, s) ==> DownOfEnded(sys', s) == DownOfEnded(sys, s))
  {
    var n := sys.nodes[q];
    var r := React(n, n.box[0], answers);
    assert SoundAt(n, true) && SubInv(sys, s);
    ReactSpares(n, n.box[0], answers, s);
    var c, p := sys.ends[s].consumer, sys.ends[s].producer;
    DeliverNode(sys, q, r, s, c);
    DeliverNode(sys, q, r, s, p);
    DeliverOtherBox(sys, q, r, s, p);
    DeliverOtherBox(sys, q, r, s, c);
    if !StillServes(sys, s) {
      SparedMail(sys, q, r, s, c);
      OnlyEventsCount(SparedMailOf(sys, r, s));
      Units(DownOfEnded(sys, s));
    }
  }

  /** A delivery about `s`: one message fewer up, or one fewer down. */
  lemma OwnDelivered(sys: System, q: Pid, answers: Answers, s: SubId)
    requires Inv(sys) && Enabled(sys, Deliver(q, answers)) && sys.nodes[q].box[0].sub == s && Ended(sys, s)
    ensures var m, sys' := sys.nodes[q].box[0], Next(sys, Deliver(q, answers));
            && Ended(sys', s)
            && (if Upward(m) then
                  && UpOfEnded(sys, s) == [m] + UpOfEnded(sys', s)
                  && (m.Cancel? ==> !StillServes(sys', s) && DownOfEnded(sys', s) == DownOfEnded(sys, s))
                else
                  && UpOfEnded(sys', s) == UpOfEnded(sys, s) && (StillServes(sys', s) <==> StillServes(sys, s))
                  && DownOfEnded(sys, s) == [m] + DownOfEnded(sys', s))
  {
    var n, m := sys.nodes[q], sys.nodes[q].box[0];
    var r := React(n, m, answers);
    assert SoundAt(n, true) && SubInv(sys, s);
    HeadIsAddressed(sys, q, s);
    var c, p := sys.ends[s].consumer, sys.ends[s].producer;
    assert AddressedAt(sys, s, q);
    OwnMessage(n, m, answers, p);
    OwnMessage(n, m, answers, c);
    DeliverNode(sys, q, r, s, c);
    DeliverNode(sys, q, r, s, p);
    Units(About(if p == q then n.box[1..] else sys.nodes[p].box, s, true));
    Units(About(if c == q then n.box[1..] else sys.nodes[c].box, s, false));
    if m.Cancel? {
      CancelValid(n.outlet, s);
    }
  }

  // ---------------------------------------------------------------------
  // The Cancel is last
  // ---------------------------------------------------------------------

  lemma HeldHasNoCancel(sys: System, s: SubId)
    requires Inv(sys) && Held(sys, s)
    ensures NoCancel(UpOf(sys, s))
  {
    assert SubInv(sys, s) && PhaseOf(sys, s);
  }

  /** A delivery ends no subscription. */
  lemma StillHeld(sys: System, q: Pid, answers: Answers, s: SubId)
    requires Inv(sys) && Enabled(sys, Deliver(q, answers)) && Held(sys, s)
    ensures Held(Next(sys, Deliver(q, answers)), s)
  {
    var n := sys.nodes[q];
    DeliveredNodes(sys, q, React(n, n.box[0], answers));
    assert SubInv(sys, s);
    if n.box[0] == Cancel(s) {
      CancelledIsNotHeld(sys, q, s);
    }
    if s in n.intake {
      ReactKeepsIntake(n, n.box[0], answers, s);
    }
  }

  lemma DeliverClosing(sys: System, q: Pid, answers: Answers, s: SubId)
    requires Inv(sys) && AllClosing(sys) && Enabled(sys, Deliver(q, answers))
    requires Ended(Next(sys, Deliver(q, answers)), s)
    ensures var sys' := Next(sys, Deliver(q, answers)); Closing(UpOfEnded(sys', s), StillServes(sys', s))
  {
    var n := sys.nodes[q];
    var sys' := Next(sys, Deliver(q, answers));
    DeliveredNodes(sys, q, React(n, n.box[0], answers));
    if Held(sys, s) {
      StillHeld(sys, q, answers, s);
    }
    assert Ended(sys, s);
    if n.box[0].sub != s {
      OtherDelivered(sys, q, answers, s);
    } else {
      OwnDelivered(sys, q, answers, s);
      if Upward(n.box[0]) {
        ClosingTail(UpOfEnded(sys, s), StillServes(sys, s), StillServes(sys', s));
      }
    }
  }

  lemma DisconnectClosing(sys: System, c: Pid, s0: SubId, s: SubId)
    requires Inv(sys) && AllClosing(sys) && Enabled(sys, Disconnect(c, s0)) && Ended(Next(sys, Disconnect(c, s0)), s)
    ensures var sys' := Next(sys, Disconnect(c, s0)); Closing(UpOfEnded(sys', s), StillServes(sys', s))
  {
    var sys' := Next(sys, Disconnect(c, s0));
    DisconnectTells(sys, c, s0);
    assert SubInv(sys, s);
    if s == s0 {
      DisconnectedCloses(sys, sys', c, s);
    } else {
      var p := sys.ends[s].producer;
      Unmoved(sys.nodes[p].box, Cancel(s0), p == sys.nodes[c].intake[s0].peer, s);
      assert Ended(sys, s);
    }
  }

  lemma DisconnectedCloses(sys: System, sys': System, c: Pid, s: SubId)
    requires Inv(sys) && c in sys.nodes && s in sys.nodes[c].intake && sys'.ends == sys.ends && Ended(sys', s)
    requires forall x :: x in sys.nodes ==>
               x in sys'.nodes
               && sys'.nodes[x].box
                  == sys.nodes[x].box + (if x == sys.nodes[c].intake[s].peer then [Cancel(s)] else [])
    ensures Closing(UpOfEnded(sys', s), StillServes(sys', s))
  {
    var p := sys.ends[s].producer;
    assert SubInv(sys, s);
    assert AddressedAt(sys, s, c);
    HeldHasNoCancel(sys, s);
    AboutConcat(sys.nodes[p].box, [Cancel(s)], s, true);
    assert About([Cancel(s)], s, true) == [Cancel(s)];
    assert UpOfEnded(sys', s) == UpOf(sys, s) + [Cancel(s)];
  }

  lemma ConnectClosing(sys: System, step: Step, s: SubId)
    requires Inv(sys) && AllClosing(sys) && step.Connect? && Enabled(sys, step) && Ended(Next(sys, step), s)
    ensures var sys' := Next(sys, step); Closing(UpOfEnded(sys', s), StillServes(sys', s))
  {
    ConnectAsks(sys, step.consumer, step.producer, step.sub, step.maxDemand, step.minDemand, step.partition);
    var p := Next(sys, step).ends[s].producer;
    var m := Subscribe(step.sub, step.consumer, step.partition);
    AboutConcat(sys.nodes[p].box, if p == step.producer then [m] else [], s, true);
    assert s != step.sub;
    assert About([m], s, true) == [];
    Units(About(sys.nodes[p].box, s, true));
    assert Ended(sys, s);
  }

  lemma StepClosing(sys: System, step: Step)
    requires Inv(sys) && AllClosing(sys) && Enabled(sys, step)
    ensures AllClosing(Next(sys, step))
  {
    var sys' := Next(sys, step);
    forall s | Ended(sys', s) ensures Closing(UpOfEnded(sys', s), StillServes(sys', s)) {
      match step
      case Connect(_, _, _, _, _, _) => ConnectClosing(sys, step, s);
      case Disconnect(c, s0) => DisconnectClosing(sys, c, s0, s);
      case Deliver(q, answers) => DeliverClosing(sys, q, answers, s);
      case Die(_) => assert Ended(sys, s);
    }
  }

  lemma {:induction false} RunClosing(sys: System, steps: seq<Step>)
    requires Inv(sys) && AllClosing(sys)
    ensures AllClosing(Run(sys, steps))
    decreases |steps|
  {
    if steps != [] {
      if Enabled(sys, steps[0]) {
        StepKeeps(sys, steps[0]);
        StepClosing(sys, steps[0]);
      }
      RunClosing(if Enabled(sys, steps[0]) then Next(sys, steps[0]) else sys, steps[1..]);
    }
  }

  // ---------------------------------------------------------------------
  // Afterwards
  // ---------------------------------------------------------------------

  /** Given up, handled, and with nothing more on its way up. */
  predicate Over(sys: System, s: SubId) {
    Ended(sys, s) && UpOfEnded(sys, s) == [] && !StillServes(sys, s)
  }

  /** What is still on its way down was so before. */
  predicate Drains(before: seq<Message>, after: seq<Message>) {
    |after| <= |before| && after == before[|before| - |after|..]
  }

  lemma OtherSteps(sys: System, step: Step, s: SubId)
    requires Inv(sys) && Over(sys, s) && Enabled(sys, step) && !step.Deliver?
    ensures Over(Next(sys, step), s) && DownOfEnded(Next(sys, step), s) == DownOfEnded(sys, s)
  {
    var c, p := sys.ends[s].consumer, sys.ends[s].producer;
    assert SubInv(sys, s);
    match step
    case Connect(c0, p0, s0, max, min, partition) =>
      ConnectAsks(sys, c0, p0, s0, max, min, partition);
      Unmoved(sys.nodes[p].box, Subscribe(s0, c0, partition), p == p0, s);
      Unmoved(sys.nodes[c].box, Subscribe(s0, c0, partition), c == p0, s);
    case Disconnect(c0, s0) =>
      DisconnectTells(sys, c0, s0);
      assert AddressedAt(sys, s, c0);
      assert s0 != s;
      Unmoved(sys.nodes[p].box, Cancel(s0), p == sys.nodes[c0].intake[s0].peer, s);
      Unmoved(sys.nodes[c].box, Cancel(s0), c == sys.nodes[c0].intake[s0].peer, s);
    case Die(_) =>
  }

  /** A message about another subscription changes nothing about `s`. */
  lemma Unmoved(box: seq<Message>, m: Message, comes: bool, s: SubId)
    requires m.sub != s
    ensures forall up :: About(box + (if comes then [m] else []), s, up) == About(box, s, up)
  {
    forall up ensures About(box + (if comes then [m] else []), s, up) == About(box, s, up) {
      AboutConcat(box, if comes then [m] else [], s, up);
      assert About([m], s, up) == [];
      Units(About(box, s, up));
    }
  }

  lemma StillOver(sys: System, step: Step, s: SubId)
    requires Inv(sys) && Over(sys, s) && Enabled(sys, step)
    ensures Over(Next(sys, step), s) && Drains(DownOfEnded(sys, s), DownOfEnded(Next(sys, step), s))
  {
    if !step.Deliver? {
      OtherSteps(sys, step, s);
    } else if sys.nodes[step.stage].box[0].sub != s {
      OtherDelivered(sys, step.stage, step.answers, s);
    } else {
      OwnDelivered(sys, step.stage, step.answers, s);
    }
  }

  lemma {:induction false} OverForGood(sys: System, steps: seq<Step>, s: SubId)
    requires Inv(sys) && Over(sys, s)
    ensures Over(Run(sys, steps), s) && Drains(DownOfEnded(sys, s), DownOfEnded(Run(sys, steps), s))
    decreases |steps|
  {
    if steps != [] {
      if Enabled(sys, steps[0]) {
        StepKeeps(sys, steps[0]);
        StillOver(sys, steps[0], s);
        OverForGood(Next(sys, steps[0]), steps[1..], s);
      } else {
        OverForGood(sys, steps[1..], s);
      }
    }
  }

  /** When a producer takes a Cancel, it was the last message about its subscription on the
      way up, and the subscription is over: it is in no table of either end, whatever happens
      later, and of the messages about it only those already in the mailbox of the consumer
      are ever delivered. */
  lemma CancelledIsOver(start: System, steps: seq<Step>, q: Pid, answers: Answers, more: seq<Step>)
    requires Initial(start) && Ready(Run(start, steps), q) && Run(start, steps).nodes[q].box[0].Cancel?
    ensures var sys := Run(start, steps);
            var s := sys.nodes[q].box[0].sub;
            var now := Next(sys, Deliver(q, answers));
            var later := Run(now, more);
            && Ended(sys, s) && sys.ends[s].producer == q && UpOfEnded(sys, s) == [Cancel(s)]
            && Over(now, s) && DownOfEnded(now, s) == DownOfEnded(sys, s)
            && Over(later, s) && Drains(DownOfEnded(now, s), DownOfEnded(later, s))
  {
    var sys := Run(start, steps);
    var s := sys.nodes[q].box[0].sub;
    InitialInv(start);
    RunKeeps(start, steps);
    RunClosing(start, steps);
    assert SubInv(sys, s);
    HeadIsAddressed(sys, q, s);
    CancelledIsNotHeld(sys, q, s);
    assert Ended(sys, s);
    OwnDelivered(sys, q, answers, s);
    var up := UpOfEnded(sys, s);
    assert Closing(up, StillServes(sys, s)) && up[0] == Cancel(s);
    assert |up| == 1;
    StepKeeps(sys, Deliver(q, answers));
    OverForGood(Next(sys, Deliver(q, answers)), more, s);
  }
}
