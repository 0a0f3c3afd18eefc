/** Credit conservation over every run of the network: what a consumer believes to be
    in flight is exactly what is on its way, in Demand messages, in the producer's
    demand table and in Events messages together. */
module Credit {
  import opened Identifiers
  import opened Seqs
  import opened Wrappers

  import opened Dispatch
  import opened Network
  import opened Outlets
  import opened Tables

  // ---------------------------------------------------------------------
  // The invariant
  // ---------------------------------------------------------------------

  /** Only the two ends of a subscription know it, and messages about it travel between them. */
  ghost predicate Addressed(ends: Ends, s: SubId, x: Pid, outlet: Outlet, intake: Intake, up: seq<Message>,
                            down: seq<Message>)
  {
    && (x != ends.producer ==> up == [] && s !in outlet.subs)
    && (x != ends.consumer ==> down == [] && s !in intake)
    && (s in outlet.subs ==> s in outlet.peer && outlet.peer[s] == ends.consumer)
    && SentBy(up, ends.consumer)
    && (s in intake ==> intake[s].peer == ends.producer)
  }

  ghost predicate SentBy(up: seq<Message>, consumer: Pid) {
    forall i :: 0 <= i < |up| && up[i].Subscribe? ==> up[i].sender == consumer
  }

  lemma SentByTail(m: Message, up: seq<Message>, consumer: Pid)
    requires SentBy([m] + up, consumer)
    ensures SentBy(up, consumer) && (m.Subscribe? ==> m.sender == consumer)
  {
    assert ([m] + up)[0] == m;
    assert forall i :: 0 <= i < |up| ==> ([m] + up)[i + 1] == up[i];
  }

  ghost predicate AddressedAt(sys: System, s: SubId, x: Pid)
    requires x in sys.nodes
  {
    var n := sys.nodes[x];
    var up, down := About(n.box, s, true), About(n.box, s, false);
    if s in sys.ends then Addressed(sys.ends[s], s, x, n.outlet, n.intake, up, down)
    else up == [] && down == [] && s !in n.outlet.subs && s !in n.intake
  }

  /** The life of a subscription the consumer still holds: its Subscribe is waiting;
      or the producer died refusing it; or its SubscribeAck is waiting; or it is live,
      with all credit accounted for. */
  ghost predicate Phase(info: Info, subscribed: bool, pending: int, up: seq<Message>, down: seq<Message>,
                        acked: bool, producerRuns: bool)
  {
    || (|up| == 1 && up[0].Subscribe? && down == [] && !subscribed && info.inFlight == 0 && pending == 0 && !acked)
    || (up == [] && down == [] && !producerRuns && info.inFlight == 0 && pending == 0 && !acked)
    || (up == [] && |down| == 1 && down[0].SubscribeAck? && subscribed && info.inFlight == 0 && pending == 0 && !acked)
    || (subscribed && acked && Live(info, pending, up, down))
  }

  ghost predicate Live(info: Info, pending: int, up: seq<Message>, down: seq<Message>) {
    && OnlyDemands(up) && OnlyEvents(down) && 0 <= pending
    && info.inFlight == DemandSum(up) + pending + EventCount(down)
    && info.inFlight <= Max(0, info.maxDemand)
    && (1 <= info.maxDemand ==> 1 <= info.inFlight)
  }

  /** The subscription `s` exists and its consumer has not cancelled it. */
  ghost predicate Held(sys: System, s: SubId) {
    s in sys.ends && sys.ends[s].consumer in sys.nodes && sys.ends[s].producer in sys.nodes
    && s in sys.nodes[sys.ends[s].consumer].intake
  }

  ghost function InfoOf(sys: System, s: SubId): Info
    requires Held(sys, s)
  {
    sys.nodes[sys.ends[s].consumer].intake[s]
  }

  ghost function PendingOf(sys: System, s: SubId): int
    requires Held(sys, s)
  {
    Get(sys.nodes[sys.ends[s].producer].outlet.demand, s)
  }

  /** Messages about `s` waiting at its producer. */
  ghost function UpOf(sys: System, s: SubId): seq<Message>
    requires Held(sys, s)
  {
    About(sys.nodes[sys.ends[s].producer].box, s, true)
  }

  /** Messages about `s` waiting at its consumer. */
  ghost function DownOf(sys: System, s: SubId): seq<Message>
    requires Held(sys, s)
  {
    About(sys.nodes[sys.ends[s].consumer].box, s, false)
  }

  ghost predicate PhaseOf(sys: System, s: SubId)
    requires Held(sys, s)
  {
    var p := sys.ends[s].producer;
    Phase(InfoOf(sys, s), s in sys.nodes[p].outlet.subs, PendingOf(sys, s), UpOf(sys, s), DownOf(sys, s),
          s in sys.acked, p in sys.running)
  }

  ghost predicate SubInv(sys: System, s: SubId) {
    && (s in sys.ends ==> sys.ends[s].consumer in sys.nodes && sys.ends[s].producer in sys.nodes)
    && (forall x :: x in sys.nodes ==> AddressedAt(sys, s, x))
    && (s !in sys.ends ==> s !in sys.acked)
    && (Held(sys, s) ==> PhaseOf(sys, s))
  }

  /** Every outlet is sound, and every Demand message asks for something. */
  ghost predicate SoundAt(n: Node, runs: bool) {
    && n.outlet.peer.Keys == Elements(n.outlet.subs) && n.outlet.demand.Keys <= Elements(n.outlet.subs)
    && NonNegative(n.outlet.demand) && (runs ==> Valid(n.outlet))
    && forall i :: 0 <= i < |n.box| && n.box[i].Demand? ==> 1 <= n.box[i].count
  }

  ghost predicate Sound(sys: System) {
    forall x :: x in sys.nodes ==> SoundAt(sys.nodes[x], x in sys.running)
  }

  ghost predicate Inv(sys: System) {
    Sound(sys) && forall s :: SubInv(sys, s)
  }

  // ---------------------------------------------------------------------
  // Value-level steps of a phase
  // ---------------------------------------------------------------------

  lemma OnlyEventsCount(msgs: seq<Message>)
    requires OnlyEvents(msgs) && EventCount(msgs) == 0
    ensures msgs == []
  {
  }

  /** Routing `k` events of a subscription moves credit from the table to the way down. */
  lemma PhaseRoutes(info: Info, subscribed: bool, pending: int, up: seq<Message>, down: seq<Message>,
                    acked: bool, runs: bool, runs': bool, pending': int, more: seq<Message>)
    requires Phase(info, subscribed, pending, up, down, acked, runs)
    requires OnlyEvents(more) && 0 <= pending' && pending' == pending - EventCount(more)
    requires runs' ==> runs
    ensures Phase(info, subscribed, pending', up, down + more, acked, runs')
  {
    ContentConcat(down, more);
    if pending == 0 {
      OnlyEventsCount(more);
      assert down + more == down;
    }
  }

  // ---------------------------------------------------------------------
  // Steps that do not touch subscription s
  // ---------------------------------------------------------------------

  /** What one step does to node `x` as seen by subscription `s`: it may receive mail,
      and if `x` serves `s`, `k` of the demand of `s` may turn into events. */
  ghost predicate Spares(sys: System, sys': System, s: SubId, x: Pid, mail: seq<Message>, k: int)
    requires x in sys.nodes && x in sys'.nodes
  {
    var n, n' := sys.nodes[x], sys'.nodes[x];
    && (s in n'.intake <==> s in n.intake) && (s in n.intake ==> n'.intake[s] == n.intake[s])
    && (s in n'.outlet.subs <==> s in n.outlet.subs)
    && (s in n.outlet.subs && s in n.outlet.peer ==> s in n'.outlet.peer && n'.outlet.peer[s] == n.outlet.peer[s])
    && Get(n'.outlet.demand, s) == Get(n.outlet.demand, s) - k && 0 <= Get(n'.outlet.demand, s)
    && About(n'.box, s, true) == About(n.box, s, true)
    && About(n'.box, s, false) == About(n.box, s, false) + mail
  }

  /** The step leaves `s` alone, except that its producer may route `k` events to its consumer. */
  ghost predicate LeavesAlone(sys: System, sys': System, s: SubId, mail: seq<Message>) {
    && sys'.nodes.Keys == sys.nodes.Keys && sys'.running <= sys.running
    && (s in sys'.ends <==> s in sys.ends) && (s in sys.ends ==> sys'.ends[s] == sys.ends[s])
    && (s in sys'.acked <==> s in sys.acked)
    && OnlyEvents(mail)
    && (s !in sys.ends ==> mail == [])
    && (forall x :: x in sys.nodes ==>
          Spares(sys, sys', s, x,
                 if s in sys.ends && x == sys.ends[s].consumer then mail else [],
                 if s in sys.ends && x == sys.ends[s].producer then EventCount(mail) else 0))
  }

  lemma LeftAloneStaysSound(sys: System, sys': System, s: SubId, mail: seq<Message>)
    requires SubInv(sys, s) && LeavesAlone(sys, sys', s, mail)
    ensures SubInv(sys', s)
  {
    forall x | x in sys.nodes ensures AddressedAt(sys', s, x) {
      assert x in sys.nodes && AddressedAt(sys, s, x);
      assert Spares(sys, sys', s, x,
                    if s in sys.ends && x == sys.ends[s].consumer then mail else [],
                    if s in sys.ends && x == sys.ends[s].producer then EventCount(mail) else 0);
      assert About(sys.nodes[x].box, s, false) + [] == About(sys.nodes[x].box, s, false);
    }
    if Held(sys', s) {
      var c, p := sys.ends[s].consumer, sys.ends[s].producer;
      assert Spares(sys, sys', s, c, mail, if c == p then EventCount(mail) else 0);
      assert Spares(sys, sys', s, p, if c == p then mail else [], EventCount(mail));
      assert Held(sys, s) && PhaseOf(sys, s);
      PhaseRoutes(InfoOf(sys, s), s in sys.nodes[p].outlet.subs, PendingOf(sys, s), UpOf(sys, s), DownOf(sys, s),
                  s in sys.acked, p in sys.running, p in sys'.running, PendingOf(sys', s), mail);
    }
  }

  // ---------------------------------------------------------------------
  // One delivered message, as seen by a subscription it is not about
  // ---------------------------------------------------------------------

  /** The mail of a reaction about `s`: nothing up, and down to its peer exactly the
      events its demand paid for. */
  ghost predicate MailSpares(n: Node, r: Reaction, s: SubId, x: Pid) {
    && About(MailTo(r.sends, x), s, true) == []
    && var down := About(MailTo(r.sends, x), s, false);
       && OnlyEvents(down)
       && EventCount(down) == if s in n.outlet.peer && n.outlet.peer[s] == x
                              then Get(n.outlet.demand, s) - Get(r.outlet.demand, s) else 0
  }

  ghost predicate ReactionSpares(n: Node, r: Reaction, s: SubId)
    requires n.outlet.peer.Keys == Elements(n.outlet.subs)
  {
    && (s in r.intake <==> s in n.intake) && (s in n.intake ==> r.intake[s] == n.intake[s])
    && (s in r.outlet.subs <==> s in n.outlet.subs)
    && (s in n.outlet.subs ==> s in r.outlet.peer && r.outlet.peer[s] == n.outlet.peer[s])
    && (s !in n.outlet.subs ==> Get(r.outlet.demand, s) == Get(n.outlet.demand, s))
    && 0 <= Get(r.outlet.demand, s)
    && forall x :: MailSpares(n, r, s, x)
  }

  /** The mail of an effect, with one more message about another subscription around it. */
  lemma MailAround(before: seq<Send>, sends: seq<Send>, after: seq<Send>, x: Pid, s: SubId, up: bool)
    requires forall i :: 0 <= i < |before| ==> before[i].msg.sub != s
    requires forall i :: 0 <= i < |after| ==> after[i].msg.sub != s
    requires |before| <= 1 && |after| <= 1
    ensures About(MailTo(before + sends + after, x), s, up) == About(MailTo(sends, x), s, up)
  {
    MailConcat(before + sends, after, x);
    MailConcat(before, sends, x);
    AboutConcat(MailTo(before + sends, x), MailTo(after, x), s, up);
    AboutConcat(MailTo(before, x), MailTo(sends, x), s, up);
    NoMailAbout(before, x, s, up);
    NoMailAbout(after, x, s, up);
    Units(About(MailTo(sends, x), s, up));
  }

  lemma NoMailAbout(sends: seq<Send>, x: Pid, s: SubId, up: bool)
    requires |sends| <= 1 && forall i :: 0 <= i < |sends| ==> sends[i].msg.sub != s
    ensures About(MailTo(sends, x), s, up) == []
  {
    if sends != [] {
      assert MailTo(sends[1..], x) == [];
      Units([sends[0].msg]);
    }
  }

  lemma EffectSpares(n: Node, r: Reaction, base: Table, subs: seq<SubId>, e: Effect, before: seq<Send>,
                     after: seq<Send>, s: SubId)
    requires n.outlet.peer.Keys == Elements(n.outlet.subs)
    requires r.outlet == e.outlet && r.sends == before + e.sends + after
    requires Charged(base, subs, e.slices, e.outlet.demand) && Carries(e.outlet.peer, e.sends, e.slices)
    requires e.outlet.peer.Keys == Elements(subs)
    requires Get(base, s) == Get(n.outlet.demand, s) && 0 <= Get(base, s)
    requires (s in r.intake <==> s in n.intake) && (s in n.intake ==> r.intake[s] == n.intake[s])
    requires (s in e.outlet.subs <==> s in n.outlet.subs) && (s in subs <==> s in n.outlet.subs)
    requires s in n.outlet.subs ==> e.outlet.peer[s] == n.outlet.peer[s]
    requires |before| <= 1 && forall i :: 0 <= i < |before| ==> before[i].msg.sub != s
    requires |after| <= 1 && forall i :: 0 <= i < |after| ==> after[i].msg.sub != s
    ensures ReactionSpares(n, r, s)
  {
    assert s in n.outlet.subs ==> s in Elements(n.outlet.subs) && s in Elements(subs);
    assert s in e.outlet.peer ==> s in Elements(subs);
    forall x ensures MailSpares(n, r, s, x) {
      MailAround(before, e.sends, after, x, s, true);
      MailAround(before, e.sends, after, x, s, false);
      assert CarriesAbout(e.outlet.peer, e.sends, e.slices, x, s);
    }
  }

  lemma SubscribeSplit(o: Outlet, s: SubId, consumer: Pid, partition: Option<int>) returns (rest: Effect)
    requires Valid(o) && DoSubscribe(o, s, consumer, partition, true).Handled?
    ensures var e := DoSubscribe(o, s, consumer, partition, true).effect;
            && e.sends == [Send(consumer, SubscribeAck(s))] + rest.sends
            && rest.outlet == e.outlet && rest.slices == e.slices
            && Carries(e.outlet.peer, rest.sends, rest.slices)
  {
    var o2 := Subscribed(o, s, consumer, partition);
    SubscribedValid(o, s, consumer, partition);
    rest := Flush(o2);
    DispatchCarries(o2.(buffer := []), o2.buffer);
    FlushAccounts(o2);
    assert DoSubscribe(o, s, consumer, partition, true).effect.slices == rest.slices;
  }

  lemma SilentSpares(n: Node, r: Reaction, s: SubId)
    requires n.outlet.peer.Keys == Elements(n.outlet.subs)
    requires r.sends == [] || (|r.sends| == 1 && r.sends[0].msg.sub != s)
    requires (s in r.intake <==> s in n.intake) && (s in n.intake ==> r.intake[s] == n.intake[s])
    requires (s in r.outlet.subs <==> s in n.outlet.subs)
    requires s in n.outlet.subs ==> s in r.outlet.peer && r.outlet.peer[s] == n.outlet.peer[s]
    requires Get(r.outlet.demand, s) == Get(n.outlet.demand, s) && 0 <= Get(n.outlet.demand, s)
    ensures ReactionSpares(n, r, s)
  {
    forall x ensures MailSpares(n, r, s, x) {
      MailAround(r.sends, [], [], x, s, true);
      MailAround(r.sends, [], [], x, s, false);
      Units(r.sends);
    }
  }

  lemma SubscribeSpares(n: Node, s0: SubId, sender: Pid, partition: Option<int>, answers: Answers, s: SubId)
    requires SoundAt(n, true) && s0 != s
    ensures ReactionSpares(n, React(n, Subscribe(s0, sender, partition), answers), s)
  {
    var r := React(n, Subscribe(s0, sender, partition), answers);
    var o := n.outlet;
    if DoSubscribe(o, s0, sender, partition, answers.open).Crashed? {
      SilentSpares(n, r, s);
    } else {
      SubscribeAccounts(o, s0, sender, partition);
      var rest := SubscribeSplit(o, s0, sender, partition);
      Units([Send(sender, SubscribeAck(s0))] + rest.sends);
      EffectSpares(n, r, o.demand[s0 := 0], r.outlet.subs, rest, [Send(sender, SubscribeAck(s0))], [], s);
    }
  }

  lemma DemandSpares(n: Node, s0: SubId, count: int, answers: Answers, s: SubId)
    requires SoundAt(n, true) && s0 != s && 1 <= count
    ensures ReactionSpares(n, React(n, Demand(s0, count), answers), s)
  {
    var r := React(n, Demand(s0, count), answers);
    var o := n.outlet;
    if s0 in o.subs {
      var e := DoDemand(o, s0, count, n.kind.Producer?, answers.batches);
      DemandAccounts(o, s0, count, n.kind.Producer?, answers.batches);
      DemandCarries(o, s0, count, n.kind.Producer?, answers.batches);
      Units(e.sends);
      EffectSpares(n, r, Asked(o, s0, count).demand, o.subs, e, [], [], s);
    } else {
      SilentSpares(n, r, s);
    }
  }

  /** What `_do_events` does for a subscription the stage holds. */
  lemma EventsReaction(n: Node, s0: SubId, batch: seq<Event>, answers: Answers)
    requires s0 in n.intake
    ensures var r := React(n, Events(s0, batch), answers);
            var e := DispatchEvents(n.outlet, answers.produced);
            var refill := Refill(s0, n.intake[s0].(inFlight := Max(0, n.intake[s0].inFlight - |batch|)));
            r == Reaction(e.outlet, n.intake[s0 := refill.0], e.sends + refill.1, true)
  {
  }

  lemma RefillAsksOnce(s0: SubId, info: Info)
    ensures var demand := Refill(s0, info).1;
            |demand| <= 1 && forall i :: 0 <= i < |demand| ==> demand[i].msg.Demand? && demand[i].msg.sub == s0
  {
  }

  lemma EventsSpares(n: Node, s0: SubId, batch: seq<Event>, answers: Answers, s: SubId)
    requires SoundAt(n, true) && s0 != s
    ensures ReactionSpares(n, React(n, Events(s0, batch), answers), s)
  {
    var r := React(n, Events(s0, batch), answers);
    if s0 in n.intake {
      EventsReaction(n, s0, batch, answers);
      RefillAsksOnce(s0, n.intake[s0].(inFlight := Max(0, n.intake[s0].inFlight - |batch|)));
      EventsSpare(n, r, DispatchEvents(n.outlet, answers.produced), answers.produced,
                  Refill(s0, n.intake[s0].(inFlight := Max(0, n.intake[s0].inFlight - |batch|))).1, s);
    } else {
      SilentSpares(n, r, s);
    }
  }

  lemma EventsSpare(n: Node, r: Reaction, e: Effect, produced: seq<Event>, demand: seq<Send>, s: SubId)
    requires SoundAt(n, true) && e == DispatchEvents(n.outlet, produced)
    requires r.outlet == e.outlet && r.sends == e.sends + demand
    requires (s in r.intake <==> s in n.intake) && (s in n.intake ==> r.intake[s] == n.intake[s])
    requires |demand| <= 1 && forall i :: 0 <= i < |demand| ==> demand[i].msg.sub != s
    ensures ReactionSpares(n, r, s)
  {
    DispatchAccounts(n.outlet, produced);
    DispatchCarries(n.outlet, produced);
    Units(e.sends);
    EffectSpares(n, r, n.outlet.demand, n.outlet.subs, e, [], demand, s);
  }

  lemma ReactSpares(n: Node, msg: Message, answers: Answers, s: SubId)
    requires SoundAt(n, true) && msg.sub != s && (msg.Demand? ==> 1 <= msg.count)
    ensures ReactionSpares(n, React(n, msg, answers), s)
  {
    match msg
    case Subscribe(s0, sender, partition) => SubscribeSpares(n, s0, sender, partition, answers, s);
    case SubscribeAck(s0) => SilentSpares(n, React(n, msg, answers), s);
    case Demand(s0, count) => DemandSpares(n, s0, count, answers, s);
    case Events(s0, batch) => EventsSpares(n, s0, batch, answers, s);
    case Cancel(s0) =>
      CancelValid(n.outlet, s0);
      SilentSpares(n, React(n, msg, answers), s);
  }

  // ---------------------------------------------------------------------
  // Delivering one message
  // ---------------------------------------------------------------------

  ghost predicate Ready(sys: System, q: Pid) {
    q in sys.nodes && q in sys.running && sys.nodes[q].box != []
  }

  /** After the delivery, node `x` holds what it held, minus the message taken, plus its mail. */
  lemma DeliverNode(sys: System, q: Pid, r: Reaction, s: SubId, x: Pid)
    requires Ready(sys, q) && x in sys.nodes
    ensures var sys' := Delivered(sys, q, r);
            var n := sys.nodes[x];
            var box := if x == q then n.box[1..] else n.box;
            && sys'.nodes.Keys == sys.nodes.Keys
            && var n' := sys'.nodes[x];
            && n'.outlet == (if x == q then r.outlet else n.outlet)
            && n'.intake == (if x == q then r.intake else n.intake)
            && n'.box == box + MailTo(r.sends, x)
            && About(n'.box, s, true) == About(box, s, true) + About(MailTo(r.sends, x), s, true)
            && About(n'.box, s, false) == About(box, s, false) + About(MailTo(r.sends, x), s, false)
  {
    var n := sys.nodes[q];
    PostDelivers(sys.nodes[q := n.(outlet := r.outlet, intake := r.intake, box := n.box[1..])], r.sends);
    var box := if x == q then n.box[1..] else sys.nodes[x].box;
    AboutConcat(box, MailTo(r.sends, x), s, true);
    AboutConcat(box, MailTo(r.sends, x), s, false);
  }

  /** Mail about `s` that `q` sends while it handles something else: only to the
      consumer of `s`, and exactly what the demand of `s` paid for. */
  lemma SparedMail(sys: System, q: Pid, r: Reaction, s: SubId, x: Pid)
    requires Ready(sys, q) && SubInv(sys, s) && SoundAt(sys.nodes[q], true) && ReactionSpares(sys.nodes[q], r, s)
    ensures var down := About(MailTo(r.sends, x), s, false);
            && About(MailTo(r.sends, x), s, true) == []
            && (s !in sys.ends || x != sys.ends[s].consumer || q != sys.ends[s].producer ==> down == [])
            && (s in sys.ends && x == sys.ends[s].consumer && q == sys.ends[s].producer ==>
                  OnlyEvents(down) && EventCount(down) == Get(sys.nodes[q].outlet.demand, s) - Get(r.outlet.demand, s))
            && (s !in sys.ends || q != sys.ends[s].producer ==>
                 Get(r.outlet.demand, s) == Get(sys.nodes[q].outlet.demand, s))
  {
    var n := sys.nodes[q];
    assert MailSpares(n, r, s, x);
    assert AddressedAt(sys, s, q);
    assert s in n.outlet.peer <==> s in Elements(n.outlet.subs);
    if EventCount(About(MailTo(r.sends, x), s, false)) == 0 {
      OnlyEventsCount(About(MailTo(r.sends, x), s, false));
    }
  }

  ghost function SparedMailOf(sys: System, r: Reaction, s: SubId): seq<Message> {
    if s in sys.ends then About(MailTo(r.sends, sys.ends[s].consumer), s, false) else []
  }

  lemma DeliverOtherBox(sys: System, q: Pid, r: Reaction, s: SubId, x: Pid)
    requires Ready(sys, q) && SubInv(sys, s) && sys.nodes[q].box[0].sub != s
    requires SoundAt(sys.nodes[q], true) && ReactionSpares(sys.nodes[q], r, s)
    requires x in sys.nodes
    ensures Delivered(sys, q, r).nodes.Keys == sys.nodes.Keys
    ensures var box, box' := sys.nodes[x].box, Delivered(sys, q, r).nodes[x].box;
            var mail := if s in sys.ends && x == sys.ends[s].consumer then SparedMailOf(sys, r, s) else [];
            About(box', s, true) == About(box, s, true) && About(box', s, false) == About(box, s, false) + mail
  {
    DeliverNode(sys, q, r, s, x);
    SparedMail(sys, q, r, s, x);
    var box := sys.nodes[x].box;
    assert x == q ==> !Concerns(box[0], s, true) && !Concerns(box[0], s, false);
    assert x == q ==>
      About(box, s, true) == About(box[1..], s, true) && About(box, s, false) == About(box[1..], s, false);
    assert About(box, s, true) + [] == About(box, s, true);
  }

  lemma DeliverOtherAt(sys: System, q: Pid, r: Reaction, s: SubId, x: Pid)
    requires Ready(sys, q) && Sound(sys) && SubInv(sys, s) && sys.nodes[q].box[0].sub != s
    requires SoundAt(sys.nodes[q], true) && ReactionSpares(sys.nodes[q], r, s)
    requires x in sys.nodes
    ensures var sys' := Delivered(sys, q, r);
            var mail := SparedMailOf(sys, r, s);
            && sys'.nodes.Keys == sys.nodes.Keys
            && OnlyEvents(mail) && (s !in sys.ends ==> mail == [])
            && Spares(sys, sys', s, x,
                      if s in sys.ends && x == sys.ends[s].consumer then mail else [],
                      if s in sys.ends && x == sys.ends[s].producer then EventCount(mail) else 0)
  {
    var mail := SparedMailOf(sys, r, s);
    DeliverNode(sys, q, r, s, x);
    DeliverOtherBox(sys, q, r, s, x);
    assert SoundAt(sys.nodes[x], x in sys.running);
    if s in sys.ends {
      SparedMail(sys, q, r, s, sys.ends[s].consumer);
      assert q != sys.ends[s].producer ==> mail == [];
    }
    assert AddressedAt(sys, s, q);
  }

  lemma DeliverOther(sys: System, q: Pid, r: Reaction, s: SubId)
    requires Ready(sys, q) && Sound(sys) && SubInv(sys, s) && sys.nodes[q].box[0].sub != s
    requires SoundAt(sys.nodes[q], true) && ReactionSpares(sys.nodes[q], r, s)
    ensures SubInv(Delivered(sys, q, r), s)
  {
    var sys' := Delivered(sys, q, r);
    var mail := SparedMailOf(sys, r, s);
    DeliverOtherAt(sys, q, r, s, q);
    forall x | x in sys.nodes
      ensures Spares(sys, sys', s, x,
                     if s in sys.ends && x == sys.ends[s].consumer then mail else [],
                     if s in sys.ends && x == sys.ends[s].producer then EventCount(mail) else 0)
    {
      DeliverOtherAt(sys, q, r, s, x);
    }
    LeftAloneStaysSound(sys, sys', s, mail);
  }

  /** A message about `s` in a mailbox means `s` exists, and the mailbox is at the right end. */
  lemma HeadIsAddressed(sys: System, q: Pid, s: SubId)
    requires q in sys.nodes && sys.nodes[q].box != [] && sys.nodes[q].box[0].sub == s && SubInv(sys, s)
    ensures var m := sys.nodes[q].box[0];
            && s in sys.ends && sys.ends[s].consumer in sys.nodes && sys.ends[s].producer in sys.nodes
            && (Upward(m) ==> q == sys.ends[s].producer) && (!Upward(m) ==> q == sys.ends[s].consumer)
            && (m.Subscribe? ==> m.sender == sys.ends[s].consumer)
            && About(sys.nodes[q].box, s, Upward(m)) == [m] + About(sys.nodes[q].box[1..], s, Upward(m))
            && About(sys.nodes[q].box, s, !Upward(m)) == About(sys.nodes[q].box[1..], s, !Upward(m))
            && SentBy(About(sys.nodes[q].box[1..], s, true), sys.ends[s].consumer)
  {
    var m := sys.nodes[q].box[0];
    assert AddressedAt(sys, s, q);
    assert Concerns(m, s, Upward(m)) && !Concerns(m, s, !Upward(m));
    assert About(sys.nodes[q].box, s, Upward(m))[0] == m;
    if Upward(m) {
      SentByTail(m, About(sys.nodes[q].box[1..], s, true), sys.ends[s].consumer);
    }
  }

  /** About `s`, the reaction mails `up` to the producer and `down` to the consumer, and nobody else. */
  ghost predicate Mails(r: Reaction, s: SubId, p: Pid, up: seq<Message>, c: Pid, down: seq<Message>) {
    forall x :: && About(MailTo(r.sends, x), s, true) == (if x == p then up else [])
                && About(MailTo(r.sends, x), s, false) == (if x == c then down else [])
  }

  /** The phase of `s` after stage `q` took a message about it and mailed `up` and `down`. */
  ghost predicate PhaseAfter(sys: System, q: Pid, r: Reaction, s: SubId, up: seq<Message>, down: seq<Message>)
    requires Ready(sys, q) && Held(sys, s)
  {
    var c, p := sys.ends[s].consumer, sys.ends[s].producer;
    var m := sys.nodes[q].box[0];
    var rest := sys.nodes[q].box[1..];
    var outlet := if q == p then r.outlet else sys.nodes[p].outlet;
    (q == c ==> s in r.intake) ==>
      Phase(if q == c then r.intake[s] else sys.nodes[c].intake[s],
            s in outlet.subs, Get(outlet.demand, s),
            (if Upward(m) then About(rest, s, true) else UpOf(sys, s)) + up,
            (if Upward(m) then DownOf(sys, s) else About(rest, s, false)) + down,
            s in sys.acked || m.SubscribeAck?,
            p in sys.running && (q == p ==> r.alive))
  }

  /** Handling a message about `s` keeps every mailbox and table addressed, and moves
      the phase of `s` by the message taken and the mail sent. */
  lemma DeliverAbout(sys: System, q: Pid, r: Reaction, s: SubId, up: seq<Message>, down: seq<Message>)
    requires Ready(sys, q) && SubInv(sys, s) && sys.nodes[q].box[0].sub == s
    requires s in sys.ends && Mails(r, s, sys.ends[s].producer, up, sys.ends[s].consumer, down)
    requires SentBy(up, sys.ends[s].consumer)
    requires s in r.outlet.subs ==>
               q == sys.ends[s].producer && s in r.outlet.peer && r.outlet.peer[s] == sys.ends[s].consumer
    requires s in r.intake ==> s in sys.nodes[q].intake && r.intake[s].peer == sys.ends[s].producer
    requires Held(sys, s) && (q == sys.ends[s].consumer ==> s in r.intake) ==> PhaseAfter(sys, q, r, s, up, down)
    ensures SubInv(Delivered(sys, q, r), s)
  {
    HeadIsAddressed(sys, q, s);
    var sys' := Delivered(sys, q, r);
    var c, p := sys.ends[s].consumer, sys.ends[s].producer;
    DeliverNode(sys, q, r, s, q);
    DeliverAddressed(sys, q, r, s, up, down);
    if Held(sys', s) {
      DeliverNode(sys, q, r, s, c);
      DeliverNode(sys, q, r, s, p);
      assert Held(sys, s);
      assert About(MailTo(r.sends, p), s, true) == up && About(MailTo(r.sends, c), s, false) == down;
    }
  }

  lemma DeliverAddressed(sys: System, q: Pid, r: Reaction, s: SubId, up: seq<Message>, down: seq<Message>)
    requires Ready(sys, q) && SubInv(sys, s) && sys.nodes[q].box[0].sub == s
    requires s in sys.ends && Mails(r, s, sys.ends[s].producer, up, sys.ends[s].consumer, down)
    requires SentBy(up, sys.ends[s].consumer)
    requires s in r.outlet.subs ==>
               q == sys.ends[s].producer && s in r.outlet.peer && r.outlet.peer[s] == sys.ends[s].consumer
    requires s in r.intake ==> s in sys.nodes[q].intake && r.intake[s].peer == sys.ends[s].producer
    ensures Delivered(sys, q, r).nodes.Keys == sys.nodes.Keys
    ensures forall x :: x in sys.nodes ==> AddressedAt(Delivered(sys, q, r), s, x)
  {
    HeadIsAddressed(sys, q, s);
    var sys' := Delivered(sys, q, r);
    DeliverNode(sys, q, r, s, q);
    assert AddressedAt(sys, s, q);
    forall x | x in sys.nodes ensures AddressedAt(sys', s, x) {
      DeliverNode(sys, q, r, s, x);
      assert AddressedAt(sys, s, x);
      var n := sys.nodes[x];
      SentByAppend(About(if x == q then n.box[1..] else n.box, s, true), About(MailTo(r.sends, x), s, true),
                   sys.ends[s].consumer);
      assert About(n.box, s, true) + [] == About(n.box, s, true);
    }
  }

  lemma SentByAppend(a: seq<Message>, b: seq<Message>, consumer: Pid)
    requires SentBy(a, consumer) && SentBy(b, consumer)
    ensures SentBy(a + b, consumer)
  {
  }

  /** A SubscribeAck followed by mail that carries nothing about `s`. */
  lemma AckAlone(peer: map<SubId, Pid>, sends: seq<Send>, slices: seq<Slice>, s: SubId, c: Pid, x: Pid)
    requires CarriesAbout(peer, sends, slices, x, s) && BatchFor(slices, s) == []
    ensures var all := [Send(c, SubscribeAck(s))] + sends;
            && About(MailTo(all, x), s, true) == []
            && About(MailTo(all, x), s, false) == if x == c then [SubscribeAck(s)] else []
  {
    var ack := [Send(c, SubscribeAck(s))];
    OnlyEventsCount(About(MailTo(sends, x), s, false));
    EventsMail(ack, sends, s, x);
    assert MailTo(ack, x) == if x == c then [SubscribeAck(s)] else [];
    assert About([SubscribeAck(s)], s, false) == [SubscribeAck(s)];
  }

  lemma SubscribeMail(n: Node, s: SubId, c: Pid, partition: Option<int>, r: Reaction, p: Pid)
    requires Valid(n.outlet) && DoSubscribe(n.outlet, s, c, partition, true).Handled?
    requires var e := DoSubscribe(n.outlet, s, c, partition, true).effect; r.outlet == e.outlet && r.sends == e.sends
    ensures Mails(r, s, p, [], c, [SubscribeAck(s)])
  {
    SubscribeAccounts(n.outlet, s, c, partition);
    var rest := SubscribeSplit(n.outlet, s, c, partition);
    forall x
      ensures About(MailTo(r.sends, x), s, true) == []
      ensures About(MailTo(r.sends, x), s, false) == if x == c then [SubscribeAck(s)] else []
    {
      assert CarriesAbout(r.outlet.peer, rest.sends, rest.slices, x, s);
      AckAlone(r.outlet.peer, rest.sends, rest.slices, s, c, x);
    }
  }

  lemma DeliverSubscribe(sys: System, q: Pid, answers: Answers)
    requires Ready(sys, q) && SoundAt(sys.nodes[q], true) && sys.nodes[q].box[0].Subscribe?
    requires SubInv(sys, sys.nodes[q].box[0].sub)
    ensures SubInv(Delivered(sys, q, React(sys.nodes[q], sys.nodes[q].box[0], answers)), sys.nodes[q].box[0].sub)
  {
    var n := sys.nodes[q];
    var m := n.box[0];
    var s := m.sub;
    var r := React(n, m, answers);
    HeadIsAddressed(sys, q, s);
    var c := sys.ends[s].consumer;
    assert AddressedAt(sys, s, q);
    RegisteredValid(n.outlet, s, c);
    if Held(sys, s) {
      assert PhaseOf(sys, s) && UpOf(sys, s)[0] == m;
      assert DownOf(sys, s) + [SubscribeAck(s)] == [SubscribeAck(s)];
    }
    if r.alive {
      SubscribeAccounts(n.outlet, s, c, m.partition);
      SubscribeMail(n, s, c, m.partition, r, q);
      DeliverAbout(sys, q, r, s, [], [SubscribeAck(s)]);
    } else {
      DeliverAbout(sys, q, r, s, [], []);
    }
  }

  /** The single Demand message `_send_demand` posts. */
  lemma DemandMail(s: SubId, info: Info, count: int, x: Pid)
    ensures var sends := SendDemand(s, info, count).1;
            && About(MailTo(sends, x), s, true) == (if 0 < count && x == info.peer then [Demand(s, count)] else [])
            && About(MailTo(sends, x), s, false) == []
  {
    var sends := SendDemand(s, info, count).1;
    assert MailTo(sends, x) == if 0 < count && x == info.peer then [Demand(s, count)] else [];
  }

  lemma AckMails(n: Node, r: Reaction, s: SubId, c: Pid)
    requires s in n.intake && r.sends == SendDemand(s, n.intake[s], n.intake[s].maxDemand).1
    ensures Mails(r, s, n.intake[s].peer, AckAsk(s, n.intake[s]), c, [])
  {
    forall x
      ensures About(MailTo(r.sends, x), s, true) == (if x == n.intake[s].peer then AckAsk(s, n.intake[s]) else [])
      ensures About(MailTo(r.sends, x), s, false) == []
    {
      DemandMail(s, n.intake[s], n.intake[s].maxDemand, x);
    }
  }

  /** The first request of an acknowledged subscription. */
  function AckAsk(s: SubId, info: Info): seq<Message> {
    if 0 < info.maxDemand then [Demand(s, info.maxDemand)] else []
  }

  lemma LiveAfterAck(s: SubId, info: Info)
    requires info.inFlight == 0
    ensures Live(SendDemand(s, info, info.maxDemand).0, 0, AckAsk(s, info), [])
  {
    assert DemandSum(AckAsk(s, info)) == SendDemand(s, info, info.maxDemand).0.inFlight;
  }

  lemma DeliverAck(sys: System, q: Pid, answers: Answers)
    requires Ready(sys, q) && SoundAt(sys.nodes[q], true) && sys.nodes[q].box[0].SubscribeAck?
    requires SubInv(sys, sys.nodes[q].box[0].sub)
    ensures SubInv(Delivered(sys, q, React(sys.nodes[q], sys.nodes[q].box[0], answers)), sys.nodes[q].box[0].sub)
  {
    var n := sys.nodes[q];
    var s := n.box[0].sub;
    var r := React(n, n.box[0], answers);
    HeadIsAddressed(sys, q, s);
    assert AddressedAt(sys, s, q);
    if s in n.intake {
      AckMails(n, r, s, q);
      assert Held(sys, s) && PhaseOf(sys, s);
      assert DownOf(sys, s)[0] == n.box[0];
      Units(AckAsk(s, n.intake[s]));
      Units<Message>([]);
      LiveAfterAck(s, n.intake[s]);
      DeliverAbout(sys, q, r, s, AckAsk(s, n.intake[s]), []);
    } else {
      DeliverAbout(sys, q, r, s, [], []);
    }
  }

  /** Delivering a Demand moves its count into the table, and routing moves credit on. */
  lemma LiveDemand(info: Info, pending: int, count: int, up: seq<Message>, down: seq<Message>, s: SubId,
                   pending': int, more: seq<Message>)
    requires Live(info, pending, [Demand(s, count)] + up, down)
    requires OnlyEvents(more) && 0 <= pending' && pending' == pending + count - EventCount(more)
    ensures Live(info, pending', up, down + more)
  {
    DemandSumConcat([Demand(s, count)], up);
    ContentConcat(down, more);
    assert forall i :: 0 <= i < |up| ==> up[i] == ([Demand(s, count)] + up)[i + 1];
  }

  /** About `s`, the effect of a Demand mails exactly the events routed to `s`. */
  lemma EffectMails(peer: map<SubId, Pid>, e: Effect, r: Reaction, s: SubId, p: Pid, c: Pid)
    requires Carries(peer, e.sends, e.slices) && r.sends == e.sends
    requires s in peer ==> peer[s] == c
    ensures var down := About(MailTo(e.sends, c), s, false);
            && Mails(r, s, p, [], c, down) && OnlyEvents(down)
            && EventCount(down) == if s in peer then |BatchFor(e.slices, s)| else 0
  {
    forall x
      ensures About(MailTo(r.sends, x), s, true) == []
      ensures x != c ==> About(MailTo(r.sends, x), s, false) == []
    {
      assert CarriesAbout(peer, e.sends, e.slices, x, s);
      if x != c {
        OnlyEventsCount(About(MailTo(e.sends, x), s, false));
      }
    }
    assert CarriesAbout(peer, e.sends, e.slices, c, s);
  }

  lemma DeliverDemand(sys: System, q: Pid, answers: Answers)
    requires Ready(sys, q) && SoundAt(sys.nodes[q], true) && sys.nodes[q].box[0].Demand?
    requires SubInv(sys, sys.nodes[q].box[0].sub)
    ensures SubInv(Delivered(sys, q, React(sys.nodes[q], sys.nodes[q].box[0], answers)), sys.nodes[q].box[0].sub)
  {
    var n := sys.nodes[q];
    var m := n.box[0];
    var s := m.sub;
    var r := React(n, m, answers);
    HeadIsAddressed(sys, q, s);
    assert AddressedAt(sys, s, q);
    var c := sys.ends[s].consumer;
    var e := DoDemand(n.outlet, s, m.count, n.kind.Producer?, answers.batches);
    var down := About(MailTo(e.sends, c), s, false);
    assert s in n.outlet.subs <==> s in Elements(n.outlet.subs);
    DemandCarries(n.outlet, s, m.count, n.kind.Producer?, answers.batches);
    if s in n.outlet.subs {
      DemandAccounts(n.outlet, s, m.count, n.kind.Producer?, answers.batches);
    }
    EffectMails(n.outlet.peer, e, r, s, q, c);
    if Held(sys, s) {
      assert PhaseOf(sys, s);
      assert UpOf(sys, s)[0] == m;
      assert s in n.outlet.subs;
      LiveDemand(InfoOf(sys, s), PendingOf(sys, s), m.count, About(n.box[1..], s, true), DownOf(sys, s), s,
                 Get(e.outlet.demand, s), down);
      assert About(n.box[1..], s, true) + [] == About(n.box[1..], s, true);
    }
    DeliverAbout(sys, q, r, s, [], down);
  }

  lemma {:induction false} DemandSumNonNegative(up: seq<Message>)
    requires OnlyDemands(up)
    ensures 0 <= DemandSum(up)
  {
    if up != [] {
      assert up[0].count >= 1;
      assert forall i :: 0 <= i < |up[1..]| ==> up[1..][i] == up[i + 1];
      DemandSumNonNegative(up[1..]);
    }
  }

  /** What the refill asks for, if anything. */
  function RefillAsk(s: SubId, spent: Info): seq<Message> {
    if (spent.inFlight < spent.minDemand || spent.inFlight == 0) && 0 < spent.maxDemand - spent.inFlight
    then [Demand(s, spent.maxDemand - spent.inFlight)] else []
  }

  /** Delivering Events uses up in-flight credit, never more than there is, and the
      refill restores it; meanwhile `more` may be routed if the stage feeds itself. */
  lemma LiveEvents(info: Info, pending: int, batch: seq<Event>, up: seq<Message>, down: seq<Message>, s: SubId,
                   pending': int, more: seq<Message>)
    requires Live(info, pending, up, [Events(s, batch)] + down)
    requires OnlyEvents(more) && 0 <= pending' && pending' == pending - EventCount(more)
    ensures |batch| <= info.inFlight
    ensures var spent := info.(inFlight := Max(0, info.inFlight - |batch|));
            Live(Refill(s, spent).0, pending', up + RefillAsk(s, spent), down + more)
  {
    DemandSumNonNegative(up);
    OneEvents(s, batch, down);
    var spent := info.(inFlight := Max(0, info.inFlight - |batch|));
    RefillAsks(s, spent);
    BothGrow(up, RefillAsk(s, spent), down, more);
  }

  /** Demands appended on the way up, events on the way down. */
  lemma BothGrow(up: seq<Message>, asks: seq<Message>, down: seq<Message>, more: seq<Message>)
    requires OnlyDemands(up) && OnlyDemands(asks) && OnlyEvents(down) && OnlyEvents(more)
    ensures OnlyDemands(up + asks) && DemandSum(up + asks) == DemandSum(up) + DemandSum(asks)
    ensures OnlyEvents(down + more) && EventCount(down + more) == EventCount(down) + EventCount(more)
  {
    DemandSumConcat(up, asks);
    ContentConcat(down, more);
  }

  /** The refill sends what it adds, and stays within the maximum if the credit was. */
  lemma RefillAsks(s: SubId, info: Info)
    ensures var refilled := Refill(s, info).0;
            && OnlyDemands(RefillAsk(s, info))
            && DemandSum(RefillAsk(s, info)) == refilled.inFlight - info.inFlight >= 0
            && refilled == info.(inFlight := refilled.inFlight)
            && (info.inFlight <= info.maxDemand ==> refilled.inFlight <= info.maxDemand)
  {
  }

  lemma OneEvents(s: SubId, batch: seq<Event>, down: seq<Message>)
    requires OnlyEvents([Events(s, batch)] + down)
    ensures OnlyEvents(down) && EventCount([Events(s, batch)] + down) == |batch| + EventCount(down)
  {
    ContentConcat([Events(s, batch)], down);
    Units(batch);
    assert Content([Events(s, batch)]) == batch;
    assert forall i :: 0 <= i < |down| ==> down[i] == ([Events(s, batch)] + down)[i + 1];
  }

  lemma EventsMail(sends: seq<Send>, demand: seq<Send>, s: SubId, x: Pid)
    ensures About(MailTo(sends + demand, x), s, true)
      == About(MailTo(sends, x), s, true) + About(MailTo(demand, x), s, true)
    ensures About(MailTo(sends + demand, x), s, false)
      == About(MailTo(sends, x), s, false) + About(MailTo(demand, x), s, false)
  {
    MailConcat(sends, demand, x);
    AboutConcat(MailTo(sends, x), MailTo(demand, x), s, true);
    AboutConcat(MailTo(sends, x), MailTo(demand, x), s, false);
  }

  lemma EventsMails(peer: map<SubId, Pid>, e: Effect, r: Reaction, s: SubId, spent: Info, c: Pid)
    requires Carries(peer, e.sends, e.slices) && r.sends == e.sends + Refill(s, spent).1
    requires s in peer ==> peer[s] == c
    ensures var down := About(MailTo(e.sends, c), s, false);
            && Mails(r, s, spent.peer, RefillAsk(s, spent), c, down) && OnlyEvents(down)
            && EventCount(down) == if s in peer then |BatchFor(e.slices, s)| else 0
  {
    var r0 := r.(sends := e.sends);
    EffectMails(peer, e, r0, s, spent.peer, c);
    forall x
      ensures About(MailTo(r.sends, x), s, true) == if x == spent.peer then RefillAsk(s, spent) else []
      ensures About(MailTo(r.sends, x), s, false) == About(MailTo(e.sends, x), s, false)
    {
      assert About(MailTo(r0.sends, x), s, true) == [];
      EventsMail(e.sends, Refill(s, spent).1, s, x);
      DemandMail(s, spent, spent.maxDemand - spent.inFlight, x);
    }
    assert forall x :: x != c ==> About(MailTo(r0.sends, x), s, false) == [];
  }

  /** The credit of a held subscription after its Events were taken and refilled. */
  lemma HeldEventsPhase(sys: System, q: Pid, r: Reaction, s: SubId, batch: seq<Event>, e: Effect, down: seq<Message>)
    requires Ready(sys, q) && SoundAt(sys.nodes[q], true) && sys.nodes[q].box[0] == Events(s, batch)
    requires SubInv(sys, s) && s in sys.nodes[q].intake && Held(sys, s) && sys.ends[s].consumer == q
    requires var n := sys.nodes[q];
             var spent := n.intake[s].(inFlight := Max(0, n.intake[s].inFlight - |batch|));
             && r.outlet == e.outlet && r.alive && r.intake == n.intake[s := Refill(s, spent).0]
             && Charged(n.outlet.demand, n.outlet.subs, e.slices, e.outlet.demand) && e.outlet.subs == n.outlet.subs
    requires OnlyEvents(down)
    requires EventCount(down) == if q == sys.ends[s].producer then |BatchFor(e.slices, s)| else 0
    ensures var info := sys.nodes[q].intake[s];
            PhaseAfter(sys, q, r, s, RefillAsk(s, info.(inFlight := Max(0, info.inFlight - |batch|))), down)
  {
    var n := sys.nodes[q];
    var p := sys.ends[s].producer;
    assert PhaseOf(sys, s);
    assert DownOf(sys, s)[0] == n.box[0];
    LiveEvents(n.intake[s], PendingOf(sys, s), batch, UpOf(sys, s), About(n.box[1..], s, false), s,
               if q == p then Get(e.outlet.demand, s) else PendingOf(sys, s), down);
  }

  lemma HeldEventsMail(n: Node, q: Pid, r: Reaction, s: SubId, produced: seq<Event>, e: Effect, spent: Info,
                       down: seq<Message>)
    requires Valid(n.outlet) && (s in n.outlet.peer ==> n.outlet.peer[s] == q)
    requires e == DispatchEvents(n.outlet, produced) && r.sends == e.sends + Refill(s, spent).1
    requires down == About(MailTo(e.sends, q), s, false)
    ensures Mails(r, s, spent.peer, RefillAsk(s, spent), q, down) && OnlyEvents(down)
    ensures EventCount(down) == if s in n.outlet.peer then |BatchFor(e.slices, s)| else 0
  {
    DispatchCarries(n.outlet, produced);
    EventsMails(n.outlet.peer, e, r, s, spent, q);
  }

  lemma DeliverHeldEvents(sys: System, q: Pid, r: Reaction, s: SubId, batch: seq<Event>, produced: seq<Event>,
                          e: Effect, spent: Info)
    requires Ready(sys, q) && SoundAt(sys.nodes[q], true) && sys.nodes[q].box[0] == Events(s, batch)
    requires SubInv(sys, s) && s in sys.nodes[q].intake
    requires var n := sys.nodes[q];
             && e == DispatchEvents(n.outlet, produced)
             && spent == n.intake[s].(inFlight := Max(0, n.intake[s].inFlight - |batch|))
             && r == Reaction(e.outlet, n.intake[s := Refill(s, spent).0], e.sends + Refill(s, spent).1, true)
    ensures SubInv(Delivered(sys, q, r), s)
  {
    var n := sys.nodes[q];
    HeadIsAddressed(sys, q, s);
    assert AddressedAt(sys, s, q);
    var p := sys.ends[s].producer;
    assert Held(sys, s) && PhaseOf(sys, s);
    var down := About(MailTo(e.sends, q), s, false);
    HeldEventsMail(n, q, r, s, produced, e, spent, down);
    assert s in n.outlet.peer <==> s in Elements(n.outlet.subs);
    DispatchAccounts(n.outlet, produced);
    HeldEventsPhase(sys, q, r, s, batch, e, down);
    DeliverAbout(sys, q, r, s, RefillAsk(s, spent), down);
  }

  lemma DeliverEvents(sys: System, q: Pid, answers: Answers)
    requires Ready(sys, q) && SoundAt(sys.nodes[q], true) && sys.nodes[q].box[0].Events?
    requires SubInv(sys, sys.nodes[q].box[0].sub)
    ensures SubInv(Delivered(sys, q, React(sys.nodes[q], sys.nodes[q].box[0], answers)), sys.nodes[q].box[0].sub)
  {
    var n := sys.nodes[q];
    var m := n.box[0];
    var r := React(n, m, answers);
    if m.sub in n.intake {
      EventsReaction(n, m.sub, m.batch, answers);
      var info := n.intake[m.sub];
      DeliverHeldEvents(sys, q, r, m.sub, m.batch, answers.produced, DispatchEvents(n.outlet, answers.produced),
                        info.(inFlight := Max(0, info.inFlight - |m.batch|)));
    } else {
      HeadIsAddressed(sys, q, m.sub);
      assert AddressedAt(sys, m.sub, q);
      DeliverAbout(sys, q, r, m.sub, [], []);
    }
  }

  lemma CancelledIsNotHeld(sys: System, q: Pid, s: SubId)
    requires Ready(sys, q) && sys.nodes[q].box[0] == Cancel(s) && SubInv(sys, s)
    ensures !Held(sys, s)
  {
    HeadIsAddressed(sys, q, s);
    assert About(sys.nodes[q].box, s, true)[0] == Cancel(s);
  }

  lemma DeliverCancel(sys: System, q: Pid, answers: Answers)
    requires Ready(sys, q) && SoundAt(sys.nodes[q], true) && sys.nodes[q].box[0].Cancel?
    requires SubInv(sys, sys.nodes[q].box[0].sub)
    ensures SubInv(Delivered(sys, q, React(sys.nodes[q], sys.nodes[q].box[0], answers)), sys.nodes[q].box[0].sub)
  {
    var n := sys.nodes[q];
    var s := n.box[0].sub;
    var r := React(n, n.box[0], answers);
    HeadIsAddressed(sys, q, s);
    assert AddressedAt(sys, s, q);
    CancelledIsNotHeld(sys, q, s);
    CancelValid(n.outlet, s);
    DeliverAbout(sys, q, r, s, [], []);
  }
}
