/** A line of stages, each subscribed to the one before it: what reaches any stage is a prefix
    of the source stream as the stages before it transform it. */
module Lines {
  import opened Identifiers
  import opened Seqs

  import opened Credit
  import opened CreditRuns
  import opened Dispatch
  import opened Network
  import opened Outlets
  import opened Pipeline
  import opened Tables

  /** A transformation applied event by event, as `handle_events` of a middle stage does. */
  function FlatMap(f: Event -> seq<Event>, events: seq<Event>): seq<Event> {
    if events == [] then [] else f(events[0]) + FlatMap(f, events[1..])
  }

  lemma {:induction false} FlatMapConcat(f: Event -> seq<Event>, a: seq<Event>, b: seq<Event>)
    ensures FlatMap(f, a + b) == FlatMap(f, a) + FlatMap(f, b)
  {
    if a == [] {
      Units(b);
      Units(FlatMap(f, b));
    } else {
      FlatMapConcat(f, a[1..], b);
      ConcatHead(a, b);
      Assoc(f(a[0]), FlatMap(f, a[1..]), FlatMap(f, b));
    }
  }

  /** `f(k)` is what stage `k` does to each event; `Image` what the first `k` middle stages
      do together. */
  function Image(f: nat -> Event -> seq<Event>, k: nat, events: seq<Event>): seq<Event> {
    if k == 0 then events else FlatMap(f(k), Image(f, k - 1, events))
  }

  lemma FlatMapPrefix(f: Event -> seq<Event>, a: seq<Event>, b: seq<Event>)
    requires a <= b
    ensures FlatMap(f, a) <= FlatMap(f, b)
  {
    assert b == a + b[|a|..];
    FlatMapConcat(f, a, b[|a|..]);
  }

  // ---------------------------------------------------------------------
  // A line and its links
  // ---------------------------------------------------------------------

  /** `stages[k + 1]` subscribes to `stages[k]` under `subs[k]`. The first stage is the source;
      those between it and the last are middle stages. */
  datatype Line = Line(stages: seq<Pid>, subs: seq<SubId>)

  predicate IsLink(line: Line, s: SubId, e: Ends)
    requires |line.stages| == |line.subs| + 1
  {
    exists k :: 0 <= k < |line.subs| && line.subs[k] == s && e == Ends(line.stages[k + 1], line.stages[k])
  }

  ghost predicate OnLine(line: Line, sys: System) {
    && |line.stages| == |line.subs| + 1 && Distinct(line.stages) && Distinct(line.subs)
    && (forall k :: 0 <= k < |line.stages| ==> line.stages[k] in sys.nodes)
    && (forall k :: 0 < k < |line.subs| ==> sys.nodes[line.stages[k]].kind.ProducerConsumer?)
    && (forall s {:trigger s in sys.ends} :: s in sys.ends ==> IsLink(line, s, sys.ends[s]))
  }

  /** A step of a line: nothing is cancelled; the only connections are the links of the
      line; and middle stage `k` answers Events with `f(k)` of each event. */
  ghost predicate LineStep(line: Line, f: nat -> Event -> seq<Event>, sys: System, step: Step)
    requires |line.stages| == |line.subs| + 1
  {
    match step
    case Connect(c, p, s, _, _, _) => IsLink(line, s, Ends(c, p))
    case Disconnect(_, _) => false
    case Deliver(q, answers) =>
      q in sys.nodes && sys.nodes[q].box != [] && sys.nodes[q].box[0].Events? ==>
        forall k :: 0 < k < |line.subs| && line.stages[k] == q ==>
          answers.produced == FlatMap(f(k), sys.nodes[q].box[0].batch)
    case Die(_) => true
  }

  ghost predicate LineRun(line: Line, f: nat -> Event -> seq<Event>, t: Traced, steps: seq<Step>)
    requires |line.stages| == |line.subs| + 1
    decreases |steps|
  {
    steps != [] ==> LineStep(line, f, t.sys, steps[0]) && LineRun(line, f, TracedStep(t, steps[0]), steps[1..])
  }

  /** Link `k`: all that its producer routed went to it, it is a FIFO, and what a middle
      stage produced is the image of what it was handed. */
  ghost predicate LinkInv(line: Line, f: nat -> Event -> seq<Event>, t: Traced, k: nat)
    requires |line.stages| == |line.subs| + 1 && k < |line.subs|
  {
    var x, s := line.stages[k], line.subs[k];
    && StageFifo(t, x) && Channel(t, s) && AllTo(t, x, s)
    && (s in t.sys.ends ==> Held(t.sys, s))
    && (0 < k ==> At(t.log.made, x) == FlatMap(f(k), At(t.log.got, line.subs[k - 1])))
  }

  ghost predicate LineInv(line: Line, f: nat -> Event -> seq<Event>, t: Traced) {
    && Inv(t.sys) && OnLine(line, t.sys)
    && (forall k {:trigger LinkInv(line, f, t, k)} :: 0 <= k < |line.subs| ==> LinkInv(line, f, t, k))
  }

  /** A stage of the line has no other subscriber than the next one. */
  lemma OnlyLink(line: Line, sys: System, k: nat, s: SubId)
    requires OnLine(line, sys) && k < |line.subs| && s in sys.ends
    ensures sys.ends[s].producer == line.stages[k] ==> s == line.subs[k]
    ensures sys.ends[s].consumer == line.stages[k + 1] ==> s == line.subs[k]
    ensures s == line.subs[k] ==> sys.ends[s] == Ends(line.stages[k + 1], line.stages[k])
  {
    assert IsLink(line, s, sys.ends[s]);
    var j :| 0 <= j < |line.subs| && line.subs[j] == s && sys.ends[s] == Ends(line.stages[j + 1], line.stages[j]);
  }

  lemma {:induction false} OneSubscriber(slices: seq<Slice>, s: SubId)
    requires forall x :: x != s ==> BatchFor(slices, x) == []
    ensures Flatten(slices) == BatchFor(slices, s)
  {
    if slices != [] {
      forall x | x != s ensures BatchFor(slices[1..], x) == [] {
        assert BatchFor(slices, x) == [];
      }
      OneSubscriber(slices[1..], s);
      if slices[0].sub != s {
        assert BatchFor(slices, slices[0].sub) == [];
      }
    }
  }

  /** A stage whose only subscriber can be `s` routes everything to `s`. */
  lemma RoutesToOne(sys: System, q: Pid, answers: Answers, s: SubId)
    requires Inv(sys) && Ready(sys, q)
    requires forall x :: x in sys.ends && sys.ends[x].producer == q ==> x == s
    ensures var e := Routing(sys.nodes[q], sys.nodes[q].box[0], answers); Flatten(e.slices) == BatchFor(e.slices, s)
  {
    var n := sys.nodes[q];
    var m := n.box[0];
    var e := Routing(n, m, answers);
    var r := React(n, m, answers);
    assert SoundAt(n, true);
    DeliverKeeps(sys, q, answers);
    forall x | x != s ensures BatchFor(e.slices, x) == [] {
      ReactConveys(n, m, answers, x);
      assert SubInv(Delivered(sys, q, r), x);
      DeliverNode(sys, q, r, x, q);
      assert AddressedAt(Delivered(sys, q, r), x, q);
      PeersAreSubs(Delivered(sys, q, r), q, x);
    }
    OneSubscriber(e.slices, s);
  }

  /** The consumer of a held subscription keeps it whatever it is delivered. */
  lemma KeepsSubscription(sys: System, q: Pid, answers: Answers, s: SubId)
    requires Ready(sys, q) && Inv(sys) && Held(sys, s) && sys.ends[s].consumer == q
    ensures s in React(sys.nodes[q], sys.nodes[q].box[0], answers).intake
  {
    var m := sys.nodes[q].box[0];
    if m == Cancel(s) {
      assert SubInv(sys, s);
      CancelledIsNotHeld(sys, q, s);
    }
  }

  /** Every slice a stage routed went to `s`. */
  ghost predicate AllTo(t: Traced, x: Pid, s: SubId) {
    Flatten(At(t.log.routed, x)) == BatchFor(At(t.log.routed, x), s)
  }

  lemma DeliverAllTo(t: Traced, q: Pid, answers: Answers, x: Pid, s: SubId)
    requires Inv(t.sys) && Enabled(t.sys, Deliver(q, answers)) && AllTo(t, x, s)
    requires forall y :: y in t.sys.ends && t.sys.ends[y].producer == x ==> y == s
    ensures AllTo(TracedStep(t, Deliver(q, answers)), x, s)
  {
    if q == x {
      var e := Routing(t.sys.nodes[q], t.sys.nodes[q].box[0], answers);
      RoutesToOne(t.sys, q, answers, s);
      FlattenConcat(At(t.log.routed, q), e.slices);
      BatchForConcat(At(t.log.routed, q), e.slices, s);
    }
  }

  /** A middle stage produces only from the events it is handed. */
  lemma MiddleProduces(n: Node, m: Message, answers: Answers)
    requires !n.kind.Producer?
    ensures Routing(n, m, answers).produced == if m.Events? && m.sub in n.intake then answers.produced else []
  {
  }

  lemma LineKeepsHeld(line: Line, f: nat -> Event -> seq<Event>, t: Traced, step: Step, s: SubId)
    requires Inv(t.sys) && OnLine(line, t.sys) && LineStep(line, f, t.sys, step) && Enabled(t.sys, step)
    requires s in t.sys.ends ==> Held(t.sys, s)
    ensures var sys' := Next(t.sys, step); s in sys'.ends ==> Held(sys', s)
  {
    var sys := t.sys;
    match step
    case Die(q) =>
    case Connect(c, p, s0, maxDemand, minDemand, partition) =>
      var n := sys.nodes[c];
      PostDelivers(sys.nodes[c := n.(intake := n.intake[s0 := Info(p, maxDemand, minDemand, 0)])],
                   [Send(p, Subscribe(s0, c, partition))]);
    case Deliver(q, answers) =>
      var n := sys.nodes[q];
      var r := React(n, n.box[0], answers);
      DeliverNode(sys, q, r, s, q);
      PostDelivers(sys.nodes[q := n.(outlet := r.outlet, intake := r.intake, box := n.box[1..])], r.sends);
      if s in sys.ends && sys.ends[s].consumer == q {
        assert SubInv(sys, s);
        KeepsSubscription(sys, q, answers, s);
      }
  }

  /** A step keeps the stages and their kinds, and adds only links of the line. */
  lemma StaysOnLine(line: Line, f: nat -> Event -> seq<Event>, sys: System, step: Step)
    requires OnLine(line, sys) && LineStep(line, f, sys, step) && Enabled(sys, step)
    ensures OnLine(line, Next(sys, step))
  {
    match step
    case Die(q) =>
    case Connect(c, p, s0, maxDemand, minDemand, partition) =>
      var n := sys.nodes[c];
      PostDelivers(sys.nodes[c := n.(intake := n.intake[s0 := Info(p, maxDemand, minDemand, 0)])],
                   [Send(p, Subscribe(s0, c, partition))]);
    case Deliver(q, answers) =>
      var n := sys.nodes[q];
      var r := React(n, n.box[0], answers);
      PostDelivers(sys.nodes[q := n.(outlet := r.outlet, intake := r.intake, box := n.box[1..])], r.sends);
  }

  /** A stage of the line is sent events under the link before it only. */
  lemma EventsUnderLink(line: Line, sys: System, q: Pid, k: nat)
    requires Inv(sys) && OnLine(line, sys) && 0 < k < |line.subs| && Ready(sys, q)
    requires sys.nodes[q].box[0].Events? && sys.nodes[q].box[0].sub in sys.nodes[q].intake
    ensures sys.nodes[q].box[0].sub == line.subs[k - 1] <==> q == line.stages[k]
  {
    var s := sys.nodes[q].box[0].sub;
    assert SubInv(sys, s);
    assert AddressedAt(sys, s, q);
    OnlyLink(line, sys, k - 1, s);
  }

  /** What is handed to stage `k` comes to it under the link before. */
  lemma HandedToStage(line: Line, t: Traced, q: Pid, answers: Answers, k: nat)
    requires Inv(t.sys) && OnLine(line, t.sys) && 0 < k < |line.subs| && Enabled(t.sys, Deliver(q, answers))
    ensures var n := t.sys.nodes[q];
            var m := n.box[0];
            At(TracedStep(t, Deliver(q, answers)).log.got, line.subs[k - 1]) == At(t.log.got, line.subs[k - 1])
              + if q == line.stages[k] && m.Events? && m.sub in n.intake then m.batch else []
  {
    var m, s := t.sys.nodes[q].box[0], line.subs[k - 1];
    Units(At(t.log.got, s));
    if m.Events? && m.sub in t.sys.nodes[q].intake {
      EventsUnderLink(line, t.sys, q, k);
      assert At(Add(t.log.got, m.sub, m.batch), s) == At(t.log.got, s) + if m.sub == s then m.batch else [];
    }
  }

  /** What middle stage `k` produced stays the image of what it was handed. */
  lemma DeliverImage(line: Line, f: nat -> Event -> seq<Event>, t: Traced, q: Pid, answers: Answers, k: nat)
    requires Inv(t.sys) && OnLine(line, t.sys) && 0 < k < |line.subs|
    requires At(t.log.made, line.stages[k]) == FlatMap(f(k), At(t.log.got, line.subs[k - 1]))
    requires LineStep(line, f, t.sys, Deliver(q, answers)) && Enabled(t.sys, Deliver(q, answers))
    ensures var log := TracedStep(t, Deliver(q, answers)).log;
            At(log.made, line.stages[k]) == FlatMap(f(k), At(log.got, line.subs[k - 1]))
  {
    var n := t.sys.nodes[q];
    var m := n.box[0];
    HandedToStage(line, t, q, answers, k);
    Units(At(t.log.got, line.subs[k - 1]));
    Units(At(t.log.made, line.stages[k]));
    if q == line.stages[k] {
      MiddleProduces(n, m, answers);
      if m.Events? && m.sub in n.intake {
        FlatMapConcat(f(k), At(t.log.got, line.subs[k - 1]), m.batch);
      }
    }
  }

  lemma StepLink(line: Line, f: nat -> Event -> seq<Event>, t: Traced, step: Step, k: nat)
    requires Inv(t.sys) && OnLine(line, t.sys) && k < |line.subs| && LinkInv(line, f, t, k)
    requires LineStep(line, f, t.sys, step) && Enabled(t.sys, step)
    ensures LinkInv(line, f, TracedStep(t, step), k)
  {
    var x, s := line.stages[k], line.subs[k];
    StepStageFifo(t, step, x);
    StepChannel(t, step, s);
    LineKeepsHeld(line, f, t, step, s);
    if step.Deliver? {
      forall y | y in t.sys.ends && t.sys.ends[y].producer == x ensures y == s {
        OnlyLink(line, t.sys, k, y);
      }
      DeliverAllTo(t, step.stage, step.answers, x, s);
      if 0 < k { DeliverImage(line, f, t, step.stage, step.answers, k); }
    }
  }

  lemma StepLine(line: Line, f: nat -> Event -> seq<Event>, t: Traced, step: Step)
    requires LineInv(line, f, t) && LineStep(line, f, t.sys, step)
    ensures LineInv(line, f, TracedStep(t, step))
  {
    if Enabled(t.sys, step) {
      StepKeeps(t.sys, step);
      StaysOnLine(line, f, t.sys, step);
      forall k | 0 <= k < |line.subs| ensures LinkInv(line, f, TracedStep(t, step), k) {
        assert LinkInv(line, f, t, k);
        StepLink(line, f, t, step, k);
      }
    }
  }

  lemma {:induction false} RunLine(line: Line, f: nat -> Event -> seq<Event>, t: Traced, steps: seq<Step>)
    requires LineInv(line, f, t) && LineRun(line, f, t, steps)
    ensures LineInv(line, f, TracedRun(t, steps))
    decreases |steps|
  {
    if steps != [] {
      StepLine(line, f, t, steps[0]);
      RunLine(line, f, TracedStep(t, steps[0]), steps[1..]);
    }
  }

  /** All stages but the last dispatch by demand. */
  ghost predicate DemandDispatching(line: Line, sys: System)
    requires OnLine(line, sys)
  {
    forall k :: 0 <= k < |line.subs| ==> sys.nodes[line.stages[k]].outlet.policy.ByDemand?
  }

  lemma FreshLine(line: Line, f: nat -> Event -> seq<Event>, t: Traced)
    requires Fresh(t) && OnLine(line, t.sys) && DemandDispatching(line, t.sys)
    ensures LineInv(line, f, t)
  {
    InitialInv(t.sys);
    forall k | 0 <= k < |line.subs| ensures LinkInv(line, f, t, k) {
      assert t.sys.nodes[line.stages[k]].outlet == NewOutlet(ByDemand);
    }
  }

  /** Events of `s` waiting in the mailbox of its consumer. */
  ghost function InTransit(t: Traced, s: SubId): seq<Event> {
    if Held(t.sys, s) then Content(DownOf(t.sys, s)) else []
  }

  /** What a link handed on, what it holds and what its producer buffers make up what the
      producer produced. */
  lemma LinkPrefix(line: Line, f: nat -> Event -> seq<Event>, t: Traced, k: nat)
    requires LineInv(line, f, t) && k < |line.subs|
    ensures At(t.log.got, line.subs[k]) <= At(t.log.made, line.stages[k])
  {
    var x, s := line.stages[k], line.subs[k];
    assert LinkInv(line, f, t, k);
    if s in t.sys.ends { OnlyLink(line, t.sys, k, s); }
    assert BatchFor(At(t.log.routed, x), s) == At(t.log.got, s) + InTransit(t, s);
    Assoc(At(t.log.got, s), InTransit(t, s), t.sys.nodes[x].outlet.buffer);
  }

  lemma {:induction false} LinePrefix(line: Line, f: nat -> Event -> seq<Event>, t: Traced, k: nat)
    requires LineInv(line, f, t) && k < |line.subs|
    ensures At(t.log.got, line.subs[k]) <= Image(f, k, At(t.log.made, line.stages[0]))
    decreases k
  {
    LinkPrefix(line, f, t, k);
    if 0 < k {
      assert LinkInv(line, f, t, k);
      LinePrefix(line, f, t, k - 1);
      FlatMapPrefix(f(k), At(t.log.got, line.subs[k - 1]), Image(f, k - 1, At(t.log.made, line.stages[0])));
    }
  }

  /** In a line of any length without cancels, at every moment of every run, what each stage
      was handed is a prefix of the source stream as the stages before it transform it. */
  lemma LineDeliversPrefix(line: Line, f: nat -> Event -> seq<Event>, start: Traced, steps: seq<Step>, k: nat)
    requires Fresh(start) && OnLine(line, start.sys) && DemandDispatching(line, start.sys)
    requires LineRun(line, f, start, steps) && k < |line.subs|
    ensures var log := TracedRun(start, steps).log;
            At(log.got, line.subs[k]) <= Image(f, k, At(log.made, line.stages[0]))
  {
    FreshLine(line, f, start);
    RunLine(line, f, start, steps);
    LinePrefix(line, f, TracedRun(start, steps), k);
  }
}
