/** Every run of a cascade ends, and ends the same way. */
module CascadeRuns {
  import opened Identifiers
  import opened Seqs
  import opened Sets

  import opened Cascade

  /** Nobody is exiting or about to. */
  ghost predicate Settled(n: Net) {
    forall x :: x in n.phase ==> n.phase[x].Dead? || n.phase[x] == Running(false)
  }

  ghost function Doom(c: Setting): set<Pid> {
    set x | x in c.graph && Doomed(c, x)
  }

  lemma DoomIsClosed(c: Setting)
    requires WellFormed(c)
    ensures Spreads(c, Doom(c)) && c.first in Doom(c)
  {
    FirstIsDoomed(c);
    forall x, y | x in Doom(c) && x in c.graph && y in c.graph[x] && y !in c.trap && c.abnormal ensures y in Doom(c) {
      DoomSpreads(c, x, y);
    }
  }

  lemma {:induction false} WalkDies(c: Setting, n: Net, doom: set<Pid>, p: seq<Pid>)
    requires WellFormed(c) && Shaped(c, n) && Inv(c, n, doom) && Settled(n) && Walk(c, p)
    ensures n.phase[p[|p| - 1]].Dead?
    decreases |p|
  {
    if |p| > 1 {
      var q := p[..|p| - 1];
      var x, y := q[|q| - 1], p[|p| - 1];
      assert Walk(c, q);
      WalkDies(c, n, doom, q);
      assert Side(c, n, x, y);
    }
  }

  /** What is left of `x` when the cascade is over. */
  ghost predicate Left(c: Setting, n: Net, x: Pid)
    requires Shaped(c, n) && x in c.graph
  {
    var dead := set y | y in c.graph && n.phase[y].Dead?;
    && (n.phase[x].Dead? <==> Doomed(c, x))
    && n.links[x] == (if x in dead then {} else c.graph[x] - dead)
    && multiset(n.exits[x]) == (if Spared(c, x) then multiset(c.graph[x] * dead) else multiset{})
  }

  lemma SettledExits(c: Setting, n: Net, doom: set<Pid>, x: Pid)
    requires WellFormed(c) && Shaped(c, n) && Inv(c, n, doom) && Settled(n) && x in c.graph
    ensures var dead := set y | y in c.graph && n.phase[y].Dead?;
            multiset(n.exits[x]) == if Spared(c, x) then multiset(c.graph[x] * dead) else multiset{}
  {
    var dead := set y | y in c.graph && n.phase[y].Dead?;
    assert Own(c, n, doom, x);
    if Spared(c, x) {
      var sent, due := multiset(n.exits[x]), multiset(c.graph[x] * dead);
      forall z ensures sent[z] == due[z] {
        if z in c.graph[x] {
          assert Side(c, n, z, x);
        }
      }
    }
  }

  lemma SettledLinks(c: Setting, n: Net, doom: set<Pid>, x: Pid)
    requires WellFormed(c) && Shaped(c, n) && Inv(c, n, doom) && Settled(n) && x in c.graph
    ensures var dead := set y | y in c.graph && n.phase[y].Dead?;
            n.links[x] == if x in dead then {} else c.graph[x] - dead
  {
    assert Own(c, n, doom, x);
    forall y | y in c.graph[x] ensures y in n.links[x] <==> !n.phase[x].Dead? && !n.phase[y].Dead? {
      assert Side(c, n, x, y);
      assert Side(c, n, y, x);
    }
  }

  lemma Reached(c: Setting, steps: seq<Step>)
    requires WellFormed(c)
    ensures Inv(c, Run(c, Initial(c), steps), Doom(c))
  {
    DoomIsClosed(c);
    InitialInv(c, Doom(c));
    RunInv(c, Initial(c), Doom(c), steps);
  }

  /** The cascade is reachability. However the teardowns interleave, once nobody is exiting
      the processes that stopped are exactly the first one and those reached from it along
      links over processes not trapping exits; every trapping process that did not itself
      exit first is alive and got exactly one Exit from each linked process that stopped;
      nobody else got any; and the links left are those between survivors. */
  lemma CascadeIsReachability(c: Setting, steps: seq<Step>)
    requires WellFormed(c) && Settled(Run(c, Initial(c), steps))
    ensures forall x :: x in c.graph ==> Left(c, Run(c, Initial(c), steps), x)
    ensures forall x :: Spared(c, x) ==> !Doomed(c, x)
  {
    var n := Run(c, Initial(c), steps);
    Reached(c, steps);
    forall x | x in c.graph ensures Left(c, n, x) {
      if Doomed(c, x) {
        var p :| Walk(c, p) && p[|p| - 1] == x;
        WalkDies(c, n, Doom(c), p);
      }
      assert Own(c, n, Doom(c), x);
      SettledExits(c, n, Doom(c), x);
      SettledLinks(c, n, Doom(c), x);
    }
    forall x | Spared(c, x) ensures !Doomed(c, x) {
      SparedIsNotDoomed(c, x);
    }
  }

  lemma SparedIsNotDoomed(c: Setting, x: Pid)
    requires Spared(c, x)
    ensures !Doomed(c, x)
  {
    forall p | Walk(c, p) ensures p[|p| - 1] != x {
    }
  }

  // ---------------------------------------------------------------------
  // Every run ends
  // ---------------------------------------------------------------------

  function Weight(k: nat, phase: Phase): nat {
    match phase
    case Running(_) => 2 * k + 4
    case Closed => 2 * k + 3
    case Tearing(rest, wait) => 2 * |rest| + (if wait.Nothing? then 0 else 1) + 1
    case Dead => 0
  }

  function Potential(k: nat, phase: map<Pid, Phase>, all: seq<Pid>): nat {
    if all == [] || all[0] !in phase then 0
    else Weight(k, phase[all[0]]) + Potential(k, phase, all[1..])
  }

  ghost predicate Lists(all: seq<Pid>, s: set<Pid>) {
    && (forall x :: x in all <==> x in s)
    && Distinct(all)
  }

  lemma {:induction false} Enumerate(s: set<Pid>) returns (all: seq<Pid>)
    ensures Lists(all, s) && |all| == |s|
    decreases |s|
  {
    if s == {} {
      all := [];
    } else {
      var x :| x in s;
      var rest := Enumerate(s - {x});
      all := [x] + rest;
    }
  }

  /** Lowering `x`'s weight lowers the sum; nobody else's weight rises. */
  lemma {:induction false} PotentialDrops(k: nat, before: map<Pid, Phase>, after: map<Pid, Phase>, all: seq<Pid>,
                                          x: Pid)
    requires Distinct(all)
    requires forall y :: y in all ==> y in before && y in after && Weight(k, after[y]) <= Weight(k, before[y])
    requires x in before && x in after && Weight(k, after[x]) < Weight(k, before[x])
    ensures Potential(k, after, all) <= Potential(k, before, all)
    ensures x in all ==> Potential(k, after, all) < Potential(k, before, all)
    decreases |all|
  {
    if all != [] {
      assert forall i :: 0 <= i < |all[1..]| ==> all[1..][i] == all[i + 1];
      PotentialDrops(k, before, after, all[1..], x);
    }
  }

  lemma StepDrops(c: Setting, n: Net, step: Step, all: seq<Pid>)
    requires Shaped(c, n) && Enabled(n, step) && Lists(all, c.graph.Keys) && n.links[step.who] <= c.graph.Keys
    ensures Potential(|all|, Next(c, n, step).phase, all) < Potential(|all|, n.phase, all)
  {
    var phase' := Next(c, n, step).phase;
    StepWeights(c, n, step, all, phase');
    PotentialDrops(|all|, n.phase, phase', all, step.who);
  }

  lemma StepWeights(c: Setting, n: Net, step: Step, all: seq<Pid>, phase': map<Pid, Phase>)
    requires Shaped(c, n) && Enabled(n, step) && Lists(all, c.graph.Keys) && n.links[step.who] <= c.graph.Keys
    requires phase' == Next(c, n, step).phase
    ensures forall y :: y in n.phase && y != step.who ==> Weight(|all|, phase'[y]) <= Weight(|all|, n.phase[y])
    ensures Weight(|all|, phase'[step.who]) < Weight(|all|, n.phase[step.who])
  {
    match step
    case ListLinks(x) => ListSize(n.links[x], all);
    case Notify(x, y) => NotifyWeights(c, n, x, y, |all|);
    case _ =>
  }

  lemma NotifyWeights(c: Setting, n: Net, x: Pid, y: Pid, k: nat)
    requires Shaped(c, n) && Enabled(n, Notify(x, y))
    ensures var phase' := Notified(c, n, x, y).phase;
            && Weight(k, phase'[x]) < Weight(k, n.phase[x])
            && forall z :: z in n.phase && z != x ==> Weight(k, phase'[z]) <= Weight(k, n.phase[z])
  {
    assert |n.phase[x].rest - {y}| == |n.phase[x].rest| - 1;
  }

  lemma {:induction false} ListSize(s: set<Pid>, all: seq<Pid>)
    requires forall x :: x in s ==> x in all
    ensures |s| <= |all|
    decreases |all|
  {
    if all != [] {
      ListSize(s - {all[0]}, all[1..]);
      SubsetSize(s, (s - {all[0]}) + {all[0]});
    } else {
      assert s == {};
    }
  }

  /** Every step was possible when it was taken. */
  ghost predicate Genuine(c: Setting, n: Net, steps: seq<Step>)
    requires Shaped(c, n)
    decreases |steps|
  {
    steps == [] || (Enabled(n, steps[0]) && Genuine(c, Next(c, n, steps[0]), steps[1..]))
  }

  lemma LinksInGraph(c: Setting, n: Net, doom: set<Pid>, x: Pid)
    requires WellFormed(c) && Shaped(c, n) && Owns(c, n, doom) && x in c.graph
    ensures n.links[x] <= c.graph.Keys
  {
    assert Own(c, n, doom, x);
    forall y | y in n.links[x] ensures y in c.graph.Keys {
      assert y in c.graph[x];
    }
  }

  lemma {:induction false} RunDrops(c: Setting, n: Net, doom: set<Pid>, steps: seq<Step>, all: seq<Pid>)
    requires WellFormed(c) && Shaped(c, n) && Inv(c, n, doom) && Spreads(c, doom) && Lists(all, c.graph.Keys)
    requires Genuine(c, n, steps)
    ensures |steps| <= Potential(|all|, n.phase, all)
    decreases |steps|
  {
    if steps != [] {
      NextInv(c, n, doom, steps[0]);
      LinksInGraph(c, n, doom, steps[0].who);
      StepDrops(c, n, steps[0], all);
      RunDrops(c, Next(c, n, steps[0]), doom, steps[1..], all);
    }
  }

  lemma {:induction false} PotentialBound(k: nat, phase: map<Pid, Phase>, all: seq<Pid>)
    requires forall x :: x in all ==> x in phase && (phase[x].Running? || phase[x].Closed?)
    ensures Potential(k, phase, all) <= |all| * (2 * k + 4)
    decreases |all|
  {
    if all != [] {
      PotentialBound(k, phase, all[1..]);
      assert |all| * (2 * k + 4) == (|all| - 1) * (2 * k + 4) + (2 * k + 4);
    }
  }

  lemma StepsWithinPotential(c: Setting, steps: seq<Step>, all: seq<Pid>, k: nat)
    requires WellFormed(c) && Genuine(c, Initial(c), steps) && Lists(all, c.graph.Keys) && |all| == k
    ensures |steps| <= Potential(k, Initial(c).phase, all)
  {
    DoomIsClosed(c);
    InitialInv(c, Doom(c));
    RunDrops(c, Initial(c), Doom(c), steps, all);
  }

  lemma InitialPotential(c: Setting, all: seq<Pid>, k: nat)
    requires Lists(all, c.graph.Keys) && |all| == k
    ensures Potential(k, Initial(c).phase, all) <= k * (2 * k + 4)
  {
    PotentialBound(k, Initial(c).phase, all);
  }

  /** No cascade over `k` processes takes more than `k * (2k + 4)` steps, cycles or not. */
  lemma CascadeEnds(c: Setting, steps: seq<Step>)
    requires WellFormed(c) && Genuine(c, Initial(c), steps)
    ensures var k := |c.graph.Keys|; |steps| <= k * (2 * k + 4)
  {
    var k := |c.graph.Keys|;
    var all := Enumerate(c.graph.Keys);
    var most := Potential(k, Initial(c).phase, all);
    assert |steps| <= most by { StepsWithinPotential(c, steps, all, k); }
    assert most <= k * (2 * k + 4) by { InitialPotential(c, all, k); }
  }

  // ---------------------------------------------------------------------
  // Nobody waits for ever
  // ---------------------------------------------------------------------

  /** A process waits only for one that is still to leave its loop or left it later. */
  ghost predicate WaitsAhead(n: Net) {
    && Distinct(n.began)
    && (forall x :: x in n.began <==> x in n.phase && !n.phase[x].Running?)
    && (forall x :: x in n.phase && n.phase[x].Tearing? && n.phase[x].wait.Stopping? ==>
          var y := n.phase[x].wait.who;
          && y in n.phase && n.phase[y] != Running(false)
          && (forall i, j :: 0 <= i < |n.began| && 0 <= j < |n.began| && n.began[i] == x && n.began[j] == y ==> i < j))
  }

  lemma NextWaits(c: Setting, n: Net, step: Step)
    requires Shaped(c, n) && WaitsAhead(n)
    ensures WaitsAhead(Next(c, n, step))
  {
    if Enabled(n, step) {
      match step
      case Begin(x) => BeginWaits(c, n, x);
      case Notify(x, y) => NotifyWaits(c, n, x, y);
      case _ => StillWaits(n, step.who, Next(c, n, step).phase[step.who], Next(c, n, step));
    }
  }

  lemma BeginWaits(c: Setting, n: Net, x: Pid)
    requires Shaped(c, n) && WaitsAhead(n) && Enabled(n, Begin(x))
    ensures WaitsAhead(n.(phase := n.phase[x := Closed], began := n.began + [x]))
  {
  }

  lemma StillWaits(n: Net, x: Pid, phase: Phase, n': Net)
    requires WaitsAhead(n) && x in n.phase && !n.phase[x].Running? && !phase.Running?
    requires phase.Tearing? ==> phase.wait.Nothing?
    requires n' == n.(phase := n.phase[x := phase], exits := n'.exits)
    ensures WaitsAhead(n')
  {
  }

  lemma NotifyWaits(c: Setting, n: Net, x: Pid, y: Pid)
    requires Shaped(c, n) && WaitsAhead(n) && Enabled(n, Notify(x, y))
    ensures WaitsAhead(Notified(c, n, x, y))
  {
    var n' := Notified(c, n, x, y);
    assert n'.began == n.began;
    assert n'.phase[x].wait.Stopping? ==> y !in n.began;
    assert forall z :: z in n.phase && z != x && z != y ==> n'.phase[z] == n.phase[z];
  }

  lemma {:induction false} RunWaits(c: Setting, n: Net, steps: seq<Step>)
    requires Shaped(c, n) && WaitsAhead(n)
    ensures WaitsAhead(Run(c, n, steps))
    decreases |steps|
  {
    if steps != [] {
      NextWaits(c, n, steps[0]);
      RunWaits(c, Next(c, n, steps[0]), steps[1..]);
    }
  }

  lemma {:induction false} LatestAlive(began: seq<Pid>, phase: map<Pid, Phase>) returns (k: nat)
    requires forall x :: x in began ==> x in phase
    requires exists x :: x in began && !phase[x].Dead?
    ensures k < |began| && !phase[began[k]].Dead? && forall j :: k < j < |began| ==> phase[began[j]].Dead?
    decreases |began|
  {
    var last := |began| - 1;
    if phase[began[last]].Dead? {
      var front := began[..last];
      assert forall x :: x in began ==> x in front || x == began[last];
      k := LatestAlive(front, phase);
    } else {
      k := last;
    }
  }

  lemma InitialWaits(c: Setting)
    requires WellFormed(c)
    ensures WaitsAhead(Initial(c))
  {
  }

  /** The waits of teardowns for each other never form a cycle: until the cascade is over
      some step other than a time-out is possible. */
  lemma CascadeProceeds(c: Setting, steps: seq<Step>) returns (step: Step)
    requires WellFormed(c) && !Settled(Run(c, Initial(c), steps))
    ensures Enabled(Run(c, Initial(c), steps), step) && !step.TimeOut?
  {
    Reached(c, steps);
    InitialWaits(c);
    RunWaits(c, Initial(c), steps);
    step := StepOf(c, Run(c, Initial(c), steps), Doom(c));
  }

  lemma StepOf(c: Setting, n: Net, doom: set<Pid>) returns (step: Step)
    requires WellFormed(c) && Shaped(c, n) && Owns(c, n, doom) && WaitsAhead(n) && !Settled(n)
    ensures Enabled(n, step) && !step.TimeOut?
  {
    if x :| x in n.phase && n.phase[x] == Running(true) {
      step := Begin(x);
    } else {
      var k := LatestAlive(n.began, n.phase);
      var x := n.began[k];
      assert Own(c, n, doom, x);
      match n.phase[x]
      case Closed => step := ListLinks(x);
      case Tearing(rest, wait) =>
        if wait.Stopping? {
          step := Resume(x);
        } else if wait.Sending? {
          step := Deliver(x);
        } else if rest == {} {
          step := Finish(x);
        } else {
          var y :| y in rest;
          step := Notify(x, y);
        }
    }
  }

  // ---------------------------------------------------------------------
  // Waiting
  // ---------------------------------------------------------------------

  /** The teardown of `x` waits for `y`, with `rest` still to tell; or `y` has stopped. */
  ghost predicate WaitsFor(n: Net, x: Pid, y: Pid, rest: set<Pid>) {
    && x in n.phase && y in n.phase
    && (n.phase[x] == Tearing(rest, Stopping(y)) || n.phase[y].Dead?)
  }

  lemma WaitGoesOn(c: Setting, n: Net, step: Step, x: Pid, y: Pid, rest: set<Pid>)
    requires Shaped(c, n) && WaitsFor(n, x, y, rest) && step != TimeOut(x)
    ensures WaitsFor(Next(c, n, step), x, y, rest)
  {
    if Enabled(n, step) {
      var n' := Next(c, n, step);
      assert n.phase[y].Dead? ==> step.who != y && n'.phase[y] == n.phase[y];
      if step.who != x {
        assert n.phase[x].Tearing? ==> n'.phase[x] == n.phase[x];
      }
    }
  }

  lemma {:induction false} WaitsOverRuns(c: Setting, n: Net, steps: seq<Step>, x: Pid, y: Pid, rest: set<Pid>)
    requires Shaped(c, n) && WaitsFor(n, x, y, rest) && TimeOut(x) !in steps
    ensures WaitsFor(Run(c, n, steps), x, y, rest)
    decreases |steps|
  {
    if steps != [] {
      assert forall i :: 0 <= i < |steps| - 1 ==> steps[1..][i] == steps[i + 1];
      WaitGoesOn(c, n, steps[0], x, y, rest);
      WaitsOverRuns(c, Next(c, n, steps[0]), steps[1..], x, y, rest);
    }
  }

  /** A process torn down for an abnormal reason waits for each running neighbour it tells to
      stop: whatever the others do, it tells nobody else and does not stop itself until that
      neighbour has stopped, unless its wait times out. */
  lemma WaitsForTold(c: Setting, before: seq<Step>, x: Pid, y: Pid, after: seq<Step>)
    requires Shaped(c, Initial(c)) && Enabled(Run(c, Initial(c), before), Notify(x, y))
    requires c.abnormal && y !in c.trap && Run(c, Initial(c), before).phase[y].Running?
    requires TimeOut(x) !in after
    ensures var n := Run(c, Initial(c), before);
            var now := Next(c, n, Notify(x, y));
            var n' := Run(c, now, after);
            && now.phase[y] == Running(true)
            && (n'.phase[y].Dead? || n'.phase[x] == Tearing(n.phase[x].rest - {y}, Stopping(y)))
  {
    var n := Run(c, Initial(c), before);
    var now := Next(c, n, Notify(x, y));
    assert now == Notified(c, n, x, y);
    WaitsOverRuns(c, now, after, x, y, n.phase[x].rest - {y});
  }
}
