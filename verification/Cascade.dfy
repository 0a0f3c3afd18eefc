/** One process exits and its exit spreads along links. A teardown pauses at each await,
    so teardowns interleave in any order; whatever the order, the same processes stop and
    the same Exit messages are sent. */
module Cascade {
  import opened Identifiers

  import opened Links

  /** Who is linked at first, who traps exits, which process exits, and whether its reason
      is abnormal. */
  datatype Setting = Setting(graph: Graph, trap: set<Pid>, first: Pid, abnormal: bool)

  /** What a teardown is waiting for: its Exit to get into a mailbox, or the process it told
      to stop to do so. */
  datatype Wait = Nothing | Sending(to: Pid) | Stopping(who: Pid)

  /** A running process may have a `Stop` in its mailbox (`told`). A closed one has left its
      loop and not yet listed its links; a tearing one has `rest` of that list to go. */
  datatype Phase =
    | Running(told: bool)
    | Closed
    | Tearing(rest: set<Pid>, wait: Wait)
    | Dead

  /** `exits[p]`: the senders of the Exit messages put into `p`'s mailbox. `began`: history
      of who left its loop, in order. */
  datatype Net = Net(links: Graph, phase: map<Pid, Phase>, exits: map<Pid, seq<Pid>>, began: seq<Pid>)

  datatype Step =
    | Begin(who: Pid)
    | ListLinks(who: Pid)
    | Notify(who: Pid, next: Pid)
    | Deliver(who: Pid)
    | Resume(who: Pid)
    | TimeOut(who: Pid)
    | Finish(who: Pid)

  ghost predicate WellFormed(c: Setting) {
    Symmetric(c.graph) && c.first in c.graph
  }

  function Initial(c: Setting): Net {
    Net(c.graph,
        map p | p in c.graph :: if p == c.first then Closed else Running(false),
        map p | p in c.graph :: [],
        [c.first])
  }

  predicate Shaped(c: Setting, n: Net) {
    n.links.Keys == c.graph.Keys && n.phase.Keys == c.graph.Keys && n.exits.Keys == c.graph.Keys
  }

  predicate Enabled(n: Net, step: Step) {
    && step.who in n.phase
    && var phase := n.phase[step.who];
       match step
       case Begin(x) => phase == Running(true)
       case ListLinks(x) => phase == Closed
       case Notify(x, y) => phase.Tearing? && phase.wait.Nothing? && y in phase.rest && y in n.phase
       case Deliver(x) => phase.Tearing? && phase.wait.Sending? && phase.wait.to in n.phase
       case Resume(x) => phase.Tearing? && phase.wait.Stopping? && phase.wait.who in n.phase
         && n.phase[phase.wait.who].Dead?
       case TimeOut(x) => phase.Tearing? && phase.wait.Stopping?
       case Finish(x) => phase == Tearing({}, Nothing)
  }

  /** The teardown loop over links up to its next await, for one neighbour: unlink it; then
      begin to send it Exit if it traps exits, or tell it to stop. A closed mailbox raises,
      which is logged. */
  function Notified(c: Setting, n: Net, x: Pid, y: Pid): Net
    requires Shaped(c, n) && Enabled(n, Notify(x, y))
  {
    var rest := n.phase[x].rest - {y};
    var parted := n.(links := Parted(n.links, x, y));
    if y in c.trap then parted.(phase := n.phase[x := Tearing(rest, Sending(y))])
    else if c.abnormal && n.phase[y].Running? then
      parted.(phase := n.phase[y := Running(true)][x := Tearing(rest, Stopping(y))])
    else parted.(phase := n.phase[x := Tearing(rest, Nothing)])
  }

  /** The Exit of `x` gets into the mailbox of `to`, unless that is closed. */
  function Delivered(n: Net, x: Pid, to: Pid): Net
    requires x in n.phase && n.phase[x].Tearing? && to in n.phase && to in n.exits
  {
    n.(phase := n.phase[x := n.phase[x].(wait := Nothing)],
       exits := if n.phase[to].Running? then n.exits[to := n.exits[to] + [x]] else n.exits)
  }

  function Next(c: Setting, n: Net, step: Step): (n': Net)
    requires Shaped(c, n)
    ensures Shaped(c, n')
  {
    if !Enabled(n, step) then n
    else
      match step
      case Begin(x) => n.(phase := n.phase[x := Closed], began := n.began + [x])
      case ListLinks(x) => n.(phase := n.phase[x := Tearing(n.links[x], Nothing)])
      case Notify(x, y) => Notified(c, n, x, y)
      case Deliver(x) => Delivered(n, x, n.phase[x].wait.to)
      case Resume(x) => n.(phase := n.phase[x := n.phase[x].(wait := Nothing)])
      case TimeOut(x) => n.(phase := n.phase[x := n.phase[x].(wait := Nothing)])
      case Finish(x) => n.(phase := n.phase[x := Dead])
  }

  function Run(c: Setting, n: Net, steps: seq<Step>): (n': Net)
    requires Shaped(c, n)
    ensures Shaped(c, n')
    decreases |steps|
  {
    if steps == [] then n else Run(c, Next(c, n, steps[0]), steps[1..])
  }

  // ---------------------------------------------------------------------
  // Reachability
  // ---------------------------------------------------------------------

  /** A walk from the first process along links, over processes that do not trap exits. */
  ghost predicate Walk(c: Setting, p: seq<Pid>) {
    && |p| > 0 && p[0] == c.first
    && (|p| > 1 ==> c.abnormal)
    && (forall i :: 0 <= i < |p| ==> p[i] in c.graph)
    && (forall i :: 0 < i < |p| ==> p[i] in c.graph[p[i - 1]] && p[i] !in c.trap)
  }

  ghost predicate Doomed(c: Setting, x: Pid) {
    exists p :: Walk(c, p) && p[|p| - 1] == x
  }

  lemma FirstIsDoomed(c: Setting)
    requires WellFormed(c)
    ensures Doomed(c, c.first)
  {
    assert Walk(c, [c.first]);
  }

  lemma DoomSpreads(c: Setting, x: Pid, y: Pid)
    requires WellFormed(c) && Doomed(c, x) && x in c.graph && y in c.graph[x] && y !in c.trap && c.abnormal
    ensures Doomed(c, y)
  {
    var p :| Walk(c, p) && p[|p| - 1] == x;
    var q := p + [y];
    assert forall i :: 0 <= i < |p| ==> q[i] == p[i];
    assert Walk(c, q) && q[|q| - 1] == y;
  }

  /** Closed under being told to stop. */
  ghost predicate Spreads(c: Setting, doom: set<Pid>) {
    forall x, y :: x in doom && x in c.graph && y in c.graph[x] && y !in c.trap && c.abnormal ==> y in doom
  }

  // ---------------------------------------------------------------------
  // The invariant
  // ---------------------------------------------------------------------

  /** Traps exits, and is not the one exiting on its own account. */
  predicate Spared(c: Setting, x: Pid) {
    x in c.trap && x != c.first
  }

  predicate Torn(phase: Phase) {
    phase.Tearing? || phase.Dead?
  }

  /** `x` is past telling `y` of its exit. */
  predicate Past(phase: Phase, y: Pid) {
    phase.Dead? || (phase.Tearing? && y !in phase.rest)
  }

  /** `x` is past sending `y` its Exit. */
  predicate Reported(phase: Phase, y: Pid) {
    Past(phase, y) && (phase.Tearing? ==> phase.wait != Sending(y))
  }

  /** Neighbours `x` and `y`, from `x`'s side. */
  ghost predicate Side(c: Setting, n: Net, x: Pid, y: Pid)
    requires Shaped(c, n) && x in c.graph && y in c.graph
  {
    && (!Torn(n.phase[x]) && !Torn(n.phase[y]) ==> y in n.links[x])
    && (Past(n.phase[x], y) ==> y !in n.links[x])
    && (Past(n.phase[x], y) && c.abnormal && !Spared(c, y) ==> n.phase[y] != Running(false))
    && (Spared(c, y) ==> multiset(n.exits[y])[x] == if Reported(n.phase[x], y) then 1 else 0)
  }

  ghost predicate Sides(c: Setting, n: Net)
    requires Shaped(c, n) && WellFormed(c)
  {
    forall x, y {:trigger Side(c, n, x, y)} :: x in c.graph && y in c.graph[x] ==> Side(c, n, x, y)
  }

  ghost predicate Own(c: Setting, n: Net, doom: set<Pid>, x: Pid)
    requires Shaped(c, n) && x in c.graph
  {
    && n.links[x] <= c.graph[x]
    && (n.phase[x].Tearing? ==> n.phase[x].rest <= c.graph[x])
    && (n.phase[x].Tearing? && n.phase[x].wait.Sending? ==>
         n.phase[x].wait.to in (c.graph[x] - n.phase[x].rest) * c.trap)
    && (Spared(c, x) ==> n.phase[x] == Running(false))
    && (n.phase[x] != Running(false) ==> x in doom)
    && (forall z :: z in n.exits[x] ==> z in c.graph[x])
    && (!Spared(c, x) ==> n.exits[x] == [])
  }

  ghost predicate Owns(c: Setting, n: Net, doom: set<Pid>)
    requires Shaped(c, n)
  {
    forall x {:trigger Own(c, n, doom, x)} :: x in c.graph ==> Own(c, n, doom, x)
  }

  ghost predicate Inv(c: Setting, n: Net, doom: set<Pid>)
    requires Shaped(c, n) && WellFormed(c)
  {
    && Symmetric(n.links)
    && Sides(c, n)
    && Owns(c, n, doom)
    && !n.phase[c.first].Running?
  }

  lemma InitialInv(c: Setting, doom: set<Pid>)
    requires WellFormed(c) && c.first in doom
    ensures Shaped(c, Initial(c)) && Inv(c, Initial(c), doom)
  {
  }

  /** The same neighbours that get an Exit have got it. */
  ghost predicate SameReports(c: Setting, x: Pid, before: Phase, after: Phase)
    requires x in c.graph
  {
    forall y :: y in c.graph[x] && Spared(c, y) ==> (Reported(after, y) <==> Reported(before, y))
  }

  /** A step in which only `x`'s phase moves on, without getting past anybody. */
  lemma PhaseStep(c: Setting, n: Net, doom: set<Pid>, x: Pid, phase: Phase)
    requires WellFormed(c) && Shaped(c, n) && Inv(c, n, doom) && x in c.graph
    requires n.phase[x] != Running(false) && phase != Running(false) && !(phase.Running? && x == c.first)
    requires Torn(n.phase[x]) ==> Torn(phase)
    requires phase.Tearing? ==> phase.rest <= c.graph[x] && !phase.wait.Sending?
    requires SameReports(c, x, n.phase[x], phase)
    requires forall y :: y in c.graph[x] ==>
      (Past(phase, y) ==> y !in n.links[x] && (Past(n.phase[x], y) || (n.phase[y] != Running(false) && !Spared(c, y))))
      && (Past(n.phase[x], y) ==> Past(phase, y))
    ensures Inv(c, n.(phase := n.phase[x := phase]), doom)
  {
    PhaseSides(c, n, x, phase);
    PhaseOwns(c, n, doom, x, phase);
  }

  lemma PhaseSides(c: Setting, n: Net, x: Pid, phase: Phase)
    requires WellFormed(c) && Shaped(c, n) && Sides(c, n) && x in c.graph && phase != Running(false)
    requires Torn(n.phase[x]) ==> Torn(phase)
    requires SameReports(c, x, n.phase[x], phase)
    requires forall y :: y in c.graph[x] ==>
      (Past(phase, y) ==> y !in n.links[x] && (Past(n.phase[x], y) || (n.phase[y] != Running(false) && !Spared(c, y))))
      && (Past(n.phase[x], y) ==> Past(phase, y))
    ensures Sides(c, n.(phase := n.phase[x := phase]))
  {
    forall a, b | a in c.graph && b in c.graph[a] ensures Side(c, n.(phase := n.phase[x := phase]), a, b) {
      assert Side(c, n, a, b);
    }
  }

  lemma PhaseOwns(c: Setting, n: Net, doom: set<Pid>, x: Pid, phase: Phase)
    requires WellFormed(c) && Shaped(c, n) && Owns(c, n, doom) && x in c.graph && n.phase[x] != Running(false)
    requires phase.Tearing? ==> phase.rest <= c.graph[x] && !phase.wait.Sending?
    ensures Owns(c, n.(phase := n.phase[x := phase]), doom)
  {
    forall a | a in c.graph ensures Own(c, n.(phase := n.phase[x := phase]), doom, a) {
      assert Own(c, n, doom, a) && Own(c, n, doom, x);
    }
  }

  lemma ListStep(c: Setting, n: Net, doom: set<Pid>, x: Pid)
    requires WellFormed(c) && Shaped(c, n) && Inv(c, n, doom) && x in c.graph && n.phase[x] == Closed
    ensures Inv(c, Next(c, n, ListLinks(x)), doom)
  {
    var phase := Tearing(n.links[x], Nothing);
    assert Own(c, n, doom, x);
    forall y | y in c.graph[x] && Past(phase, y)
      ensures y !in n.links[x] && n.phase[y] != Running(false) && !Spared(c, y)
    {
      assert Side(c, n, x, y);
      assert Own(c, n, doom, y);
    }
    PhaseStep(c, n, doom, x, phase);
  }

  lemma NotifySide(c: Setting, n: Net, doom: set<Pid>, x: Pid, y: Pid, a: Pid, b: Pid)
    requires WellFormed(c) && Shaped(c, n) && Enabled(n, Notify(x, y))
    requires a in c.graph && b in c.graph[a] && Side(c, n, a, b)
    requires Own(c, n, doom, x) && Own(c, n, doom, y) && !n.phase[c.first].Running?
    ensures Side(c, Notified(c, n, x, y), a, b)
  {
    var n' := Notified(c, n, x, y);
    assert b in n'.links[a] <==> b in n.links[a] && !(a == x && b == y) && !(a == y && b == x);
    assert Past(n'.phase[a], b) <==> Past(n.phase[a], b) || (a == x && b == y);
    assert Spared(c, b) ==> (Reported(n'.phase[a], b) <==> Reported(n.phase[a], b));
  }

  lemma NotifyOwn(c: Setting, n: Net, doom: set<Pid>, x: Pid, y: Pid, a: Pid)
    requires WellFormed(c) && Shaped(c, n) && Enabled(n, Notify(x, y))
    requires a in c.graph && Own(c, n, doom, a) && Own(c, n, doom, x) && !n.phase[c.first].Running?
    requires y !in c.trap && c.abnormal ==> y in doom
    ensures Own(c, Notified(c, n, x, y), doom, a)
  {
  }

  lemma NotifySides(c: Setting, n: Net, doom: set<Pid>, x: Pid, y: Pid)
    requires WellFormed(c) && Shaped(c, n) && Sides(c, n) && Enabled(n, Notify(x, y))
    requires Own(c, n, doom, x) && Own(c, n, doom, y) && !n.phase[c.first].Running?
    ensures Sides(c, Notified(c, n, x, y))
  {
    var n' := Notified(c, n, x, y);
    forall a, b | a in c.graph && b in c.graph[a] ensures Side(c, n', a, b) {
      assert Side(c, n, a, b);
      NotifySide(c, n, doom, x, y, a, b);
    }
  }

  lemma NotifyOwns(c: Setting, n: Net, doom: set<Pid>, x: Pid, y: Pid)
    requires WellFormed(c) && Shaped(c, n) && Owns(c, n, doom) && Spreads(c, doom) && Enabled(n, Notify(x, y))
    requires !n.phase[c.first].Running?
    ensures Owns(c, Notified(c, n, x, y), doom)
  {
    assert Own(c, n, doom, x);
    assert y in c.graph[x];
    forall a | a in c.graph ensures Own(c, Notified(c, n, x, y), doom, a) {
      assert Own(c, n, doom, a);
      NotifyOwn(c, n, doom, x, y, a);
    }
  }

  lemma NotifyLinks(c: Setting, n: Net, x: Pid, y: Pid)
    requires WellFormed(c) && Shaped(c, n) && Symmetric(n.links) && Enabled(n, Notify(x, y))
    requires !n.phase[c.first].Running?
    ensures var n' := Notified(c, n, x, y); Symmetric(n'.links) && !n'.phase[c.first].Running?
  {
    PartedIsTwoSided(n.links, x, y);
  }

  lemma NotifyStep(c: Setting, n: Net, doom: set<Pid>, x: Pid, y: Pid)
    requires WellFormed(c) && Shaped(c, n) && Inv(c, n, doom) && Spreads(c, doom) && Enabled(n, Notify(x, y))
    ensures Inv(c, Notified(c, n, x, y), doom)
  {
    assert Own(c, n, doom, x) && Own(c, n, doom, y);
    NotifyLinks(c, n, x, y);
    NotifySides(c, n, doom, x, y);
    NotifyOwns(c, n, doom, x, y);
  }

  /** Only the neighbour that `x` was sending to has now got its Exit. */
  lemma DeliverSide(c: Setting, n: Net, doom: set<Pid>, x: Pid, y: Pid, a: Pid, b: Pid)
    requires WellFormed(c) && Shaped(c, n) && Enabled(n, Deliver(x)) && y == n.phase[x].wait.to
    requires y in c.graph && Own(c, n, doom, x) && Own(c, n, doom, y)
    requires a in c.graph && b in c.graph[a] && Side(c, n, a, b)
    ensures Side(c, Delivered(n, x, y), a, b)
  {
    var n' := Delivered(n, x, y);
    assert Past(n'.phase[a], b) <==> Past(n.phase[a], b);
    assert Reported(n'.phase[a], b) <==> Reported(n.phase[a], b) || (a == x && b == y);
    assert n'.exits[b] == if b == y && n.phase[y].Running? then n.exits[b] + [x] else n.exits[b];
  }

  lemma DeliverSides(c: Setting, n: Net, doom: set<Pid>, x: Pid, y: Pid)
    requires WellFormed(c) && Shaped(c, n) && Sides(c, n) && Enabled(n, Deliver(x)) && y == n.phase[x].wait.to
    requires y in c.graph && Own(c, n, doom, x) && Own(c, n, doom, y)
    ensures Sides(c, Delivered(n, x, y))
  {
    forall a, b | a in c.graph && b in c.graph[a] ensures Side(c, Delivered(n, x, y), a, b) {
      assert Side(c, n, a, b);
      DeliverSide(c, n, doom, x, y, a, b);
    }
  }

  lemma DeliverOwns(c: Setting, n: Net, doom: set<Pid>, x: Pid, y: Pid)
    requires WellFormed(c) && Shaped(c, n) && Owns(c, n, doom) && Enabled(n, Deliver(x)) && y == n.phase[x].wait.to
    requires y in c.trap && x in c.graph && y in c.graph[x] && !n.phase[c.first].Running?
    ensures Owns(c, Delivered(n, x, y), doom)
  {
    forall a | a in c.graph ensures Own(c, Delivered(n, x, y), doom, a) {
      assert Own(c, n, doom, a);
    }
  }

  lemma DeliverStep(c: Setting, n: Net, doom: set<Pid>, x: Pid)
    requires WellFormed(c) && Shaped(c, n) && Inv(c, n, doom) && Enabled(n, Deliver(x))
    ensures Inv(c, Delivered(n, x, n.phase[x].wait.to), doom)
  {
    var y := n.phase[x].wait.to;
    assert Own(c, n, doom, x);
    assert Own(c, n, doom, y);
    DeliverSides(c, n, doom, x, y);
    DeliverOwns(c, n, doom, x, y);
  }

  lemma Forward(c: Setting, n: Net, x: Pid)
    requires WellFormed(c) && Shaped(c, n) && Sides(c, n) && x in c.graph
    ensures forall y :: y in c.graph[x] && Past(n.phase[x], y) ==> y !in n.links[x]
  {
    forall y | y in c.graph[x] && Past(n.phase[x], y) ensures y !in n.links[x] {
      assert Side(c, n, x, y);
    }
  }

  lemma GoOn(c: Setting, n: Net, doom: set<Pid>, x: Pid, phase: Phase)
    requires WellFormed(c) && Shaped(c, n) && Inv(c, n, doom) && x in c.graph && n.phase[x].Tearing?
    requires !n.phase[x].wait.Sending?
    requires phase == n.phase[x].(wait := Nothing) || (n.phase[x].rest == {} && phase == Dead)
    ensures Inv(c, n.(phase := n.phase[x := phase]), doom)
  {
    assert Own(c, n, doom, x);
    Forward(c, n, x);
    PhaseStep(c, n, doom, x, phase);
  }

  /** The history is of no account. */
  lemma HistoryStep(c: Setting, n: Net, doom: set<Pid>, began: seq<Pid>)
    requires WellFormed(c) && Shaped(c, n) && Inv(c, n, doom)
    ensures Inv(c, n.(began := began), doom)
  {
    forall x, y | x in c.graph && y in c.graph[x] ensures Side(c, n.(began := began), x, y) {
      assert Side(c, n, x, y);
    }
    forall x | x in c.graph ensures Own(c, n.(began := began), doom, x) {
      assert Own(c, n, doom, x);
    }
  }

  lemma BeginStep(c: Setting, n: Net, doom: set<Pid>, x: Pid)
    requires WellFormed(c) && Shaped(c, n) && Inv(c, n, doom) && x in c.graph && n.phase[x] == Running(true)
    ensures Inv(c, n.(phase := n.phase[x := Closed], began := n.began + [x]), doom)
  {
    assert Own(c, n, doom, x);
    PhaseStep(c, n, doom, x, Closed);
    HistoryStep(c, n.(phase := n.phase[x := Closed]), doom, n.began + [x]);
  }

  lemma NextInv(c: Setting, n: Net, doom: set<Pid>, step: Step)
    requires WellFormed(c) && Shaped(c, n) && Inv(c, n, doom) && Spreads(c, doom)
    ensures Inv(c, Next(c, n, step), doom)
  {
    if Enabled(n, step) {
      match step
      case Begin(x) => BeginStep(c, n, doom, x);
      case ListLinks(x) => ListStep(c, n, doom, x);
      case Notify(x, y) => NotifyStep(c, n, doom, x, y);
      case Deliver(x) => DeliverStep(c, n, doom, x);
      case Resume(x) => GoOn(c, n, doom, x, n.phase[x].(wait := Nothing));
      case TimeOut(x) => GoOn(c, n, doom, x, n.phase[x].(wait := Nothing));
      case Finish(x) => GoOn(c, n, doom, x, Dead);
    }
  }

  lemma {:induction false} RunInv(c: Setting, n: Net, doom: set<Pid>, steps: seq<Step>)
    requires WellFormed(c) && Shaped(c, n) && Inv(c, n, doom) && Spreads(c, doom)
    ensures Inv(c, Run(c, n, steps), doom)
    decreases |steps|
  {
    if steps != [] {
      NextInv(c, n, doom, steps[0]);
      RunInv(c, Next(c, n, steps[0]), doom, steps[1..]);
    }
  }
}
