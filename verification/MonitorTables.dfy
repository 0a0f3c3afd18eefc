/** What the tables of links and monitors mean: after any run, however calls and teardowns
    interleave, exactly the links and monitors that a plain record of the steps has. */
module MonitorTables {
  import opened Identifiers
  import opened Seqs

  import opened Links
  import opened MonitorRuns
  import opened Monitors

  /** Who is linked to whom, each link both ways, and who monitors whom under which ref. */
  datatype Relation = Relation(links: set<(Pid, Pid)>, monitors: set<(Pid, Ref, Pid)>)

  const NONE: Relation := Relation({}, {})

  function CallRelation(r: Relation, call: Call, targetStopped: bool): Relation {
    match call
    case Link(a, b) => r.(links := r.links + {(a, b), (b, a)})
    case Unlink(a, b) => r.(links := r.links - {(a, b), (b, a)})
    case Monitor(a, b, ref) => if targetStopped then r else r.(monitors := r.monitors + {(a, ref, b)})
    case Demonitor(a, ref, _) => r.(monitors := set e | e in r.monitors && !(e.0 == a && e.1 == ref))
    case DemonitorProcess(a, b) => r.(monitors := set e | e in r.monitors && !(e.0 == a && e.2 == b))
  }

  /** The reference meaning of a step that is taken: a monitor goes when its target begins to
      tell of its end, when it is given up, or when its holder's teardown releases it; a link
      when either end cuts it. */
  function NextRelation(r: Relation, n: Net, step: Step): Relation
    requires Known(n) && Enabled(n, step)
  {
    match step
    case Makes(call) => CallRelation(r, call, call.Monitor? && n.stage[call.b].Stopped?)
    case TellMonitor(x, ref) => r.(monitors := r.monitors - {(n.stage[x].downs[ref], ref, x)})
    case Teardown(a, TellLink(b)) => r.(links := r.links - {(a, b), (b, a)})
    case Teardown(a, Release) => r.(monitors := set e | e in r.monitors && e.0 != a)
    case _ => r
  }

  function RunRelation(r: Relation, n: Net, steps: seq<Step>): Relation
    requires Known(n)
    decreases |steps|
  {
    if steps == [] then r
    else RunRelation(if Enabled(n, steps[0]) then NextRelation(r, n, steps[0]) else r, Next(n, steps[0]), steps[1..])
  }

  predicate Linked(w: World, a: Pid, b: Pid) {
    a in w.links && b in w.links[a]
  }

  ghost predicate LinksMean(w: World, r: Relation) {
    forall a, b :: Linked(w, a, b) <==> (a, b) in r.links
  }

  ghost predicate MonitorsMean(w: World, r: Relation) {
    forall a, ref, b :: Watches(w, a, ref, b) <==> (a, ref, b) in r.monitors
  }

  ghost predicate Means(w: World, r: Relation) {
    LinksMean(w, r) && MonitorsMean(w, r)
  }

  // ---------------------------------------------------------------------
  // Links
  // ---------------------------------------------------------------------

  lemma JoinedMeans(w: World, r: Relation, a: Pid, b: Pid)
    requires Symmetric(w.links) && a in w.links && b in w.links && Means(w, r)
    ensures Means(w.(links := Joined(w.links, a, b)), r.(links := r.links + {(a, b), (b, a)}))
  {
    var w' := w.(links := Joined(w.links, a, b));
    JoinedIsTwoSided(w.links, a, b);
    forall x, y ensures Linked(w', x, y) <==> Linked(w, x, y) || (x == a && y == b) || (x == b && y == a) {
    }
    assert forall x, ref, y :: Watches(w', x, ref, y) <==> Watches(w, x, ref, y);
  }

  lemma PartedMeans(w: World, r: Relation, a: Pid, b: Pid)
    requires Symmetric(w.links) && a in w.links && b in w.links && Means(w, r)
    ensures Means(w.(links := Parted(w.links, a, b)), r.(links := r.links - {(a, b), (b, a)}))
  {
    var w' := w.(links := Parted(w.links, a, b));
    PartedIsTwoSided(w.links, a, b);
    forall x, y ensures Linked(w', x, y) <==> Linked(w, x, y) && !(x == a && y == b) && !(x == b && y == a) {
    }
    assert forall x, ref, y :: Watches(w', x, ref, y) <==> Watches(w, x, ref, y);
  }

  // ---------------------------------------------------------------------
  // Monitors
  // ---------------------------------------------------------------------

  lemma SameLinks(w: World, w': World, r: Relation, monitors: set<(Pid, Ref, Pid)>)
    requires LinksMean(w, r) && w'.links == w.links
    ensures LinksMean(w', r.(monitors := monitors))
  {
    forall a, b ensures Linked(w', a, b) <==> (a, b) in r.links {
      assert Linked(w, a, b) <==> (a, b) in r.links;
    }
  }

  lemma WatchedMeans(w: World, issued: map<Ref, (Pid, Pid)>, r: Relation, a: Pid, b: Pid, ref: Ref)
    requires WorldOk(w, issued) && a in w.links && b in w.links && ref !in issued && Means(w, r)
    ensures Means(Watched(w, a, b, ref), r.(monitors := r.monitors + {(a, ref, b)}))
  {
    var w' := Watched(w, a, b, ref);
    NotIssued(w, issued, a, ref);
    forall x, s, y ensures Watches(w', x, s, y) <==> Watches(w, x, s, y) || (x == a && s == ref && y == b) {
    }
    SameLinks(w, w', r, r.monitors + {(a, ref, b)});
  }

  lemma DroppedMeans(w: World, issued: map<Ref, (Pid, Pid)>, r: Relation, a: Pid, refs: set<Ref>,
                     monitors: set<(Pid, Ref, Pid)>)
    requires WorldOk(w, issued) && a in w.links && Means(w, r)
    requires forall e :: e in monitors <==> e in r.monitors && !(e.0 == a && e.1 in refs)
    ensures Means(Dropped(w, a, refs), r.(monitors := monitors))
  {
    var w' := Dropped(w, a, refs);
    DroppedOk(w, issued, a, refs);
    forall x, s, y ensures Watches(w', x, s, y) <==> (x, s, y) in monitors {
      assert Watches(w, x, s, y) <==> (x, s, y) in r.monitors;
    }
    SameLinks(w, w', r, monitors);
  }

  lemma ForgottenMeans(w: World, issued: map<Ref, (Pid, Pid)>, r: Relation, b: Pid, a: Pid, ref: Ref)
    requires WorldOk(w, issued) && a in w.links && b in w.links && ref in issued && issued[ref] == (a, b)
    requires Means(w, r)
    ensures Means(Forgotten(w, b, a, ref), r.(monitors := r.monitors - {(a, ref, b)}))
  {
    var w' := Forgotten(w, b, a, ref);
    ForgottenOk(w, issued, b, a, ref);
    forall x, s, y ensures Watches(w', x, s, y) <==> Watches(w, x, s, y) && !(x == a && s == ref && y == b) {
    }
    SameLinks(w, w', r, r.monitors - {(a, ref, b)});
  }

  // ---------------------------------------------------------------------
  // Steps
  // ---------------------------------------------------------------------

  lemma CallMeans(n: Net, call: Call, r: Relation)
    requires Known(n) && WorldOk(n.world, n.issued) && Callable(n, call) && Means(n.world, r)
    ensures Means(Called(n, call).world, CallRelation(r, call, call.Monitor? && n.stage[call.b].Stopped?))
  {
    match call
    case Link(a, b) => JoinedMeans(n.world, r, a, b);
    case Unlink(a, b) => PartedMeans(n.world, r, a, b);
    case Monitor(a, b, ref) =>
      if !n.stage[b].Stopped? {
        WatchedMeans(n.world, n.issued, r, a, b, ref);
      }
    case Demonitor(a, ref, flush) => DemonitorMeans(n, a, ref, flush, r);
    case DemonitorProcess(a, b) => DemonitorProcessMeans(n, a, b, r);
  }

  lemma DemonitorMeans(n: Net, a: Pid, ref: Ref, flush: bool, r: Relation)
    requires Known(n) && WorldOk(n.world, n.issued) && a in n.stage && Means(n.world, r)
    ensures Means(Demonitored(n, a, ref, flush).world, CallRelation(r, Demonitor(a, ref, flush), false))
  {
    var monitors := CallRelation(r, Demonitor(a, ref, flush), false).monitors;
    if ref in n.world.monitors[a] {
      DroppedMeans(n.world, n.issued, r, a, {ref}, monitors);
    } else {
      forall e ensures e in monitors <==> e in r.monitors {
        assert Watches(n.world, e.0, e.1, e.2) <==> (e.0, e.1, e.2) in r.monitors;
      }
      assert monitors == r.monitors;
    }
  }

  lemma DemonitorProcessMeans(n: Net, a: Pid, b: Pid, r: Relation)
    requires Known(n) && WorldOk(n.world, n.issued) && a in n.stage && Means(n.world, r)
    ensures Means(Dropped(n.world, a, RefsFor(n.world, a, b)), CallRelation(r, DemonitorProcess(a, b), false))
  {
    var monitors := CallRelation(r, DemonitorProcess(a, b), false).monitors;
    var refs := RefsFor(n.world, a, b);
    forall e ensures e in monitors <==> e in r.monitors && !(e.0 == a && e.1 in refs) {
      assert Watches(n.world, e.0, e.1, e.2) <==> (e.0, e.1, e.2) in r.monitors;
    }
    DroppedMeans(n.world, n.issued, r, a, refs, monitors);
  }

  lemma ReleaseMeans(n: Net, a: Pid, r: Relation)
    requires Known(n) && WorldOk(n.world, n.issued) && a in n.stage && Means(n.world, r)
    ensures Means(Dropped(n.world, a, n.world.monitors[a].Keys),
                  r.(monitors := set e | e in r.monitors && e.0 != a))
  {
    var monitors := set e | e in r.monitors && e.0 != a;
    forall e ensures e in monitors <==> e in r.monitors && !(e.0 == a && e.1 in n.world.monitors[a].Keys) {
      assert Watches(n.world, e.0, e.1, e.2) <==> (e.0, e.1, e.2) in r.monitors;
    }
    DroppedMeans(n.world, n.issued, r, a, n.world.monitors[a].Keys, monitors);
  }

  lemma TellLinkMeans(n: Net, a: Pid, b: Pid, r: Relation)
    requires Known(n) && Symmetric(n.world.links) && Movable(n, a, TellLink(b)) && Means(n.world, r)
    ensures Means(Moved(n, a, TellLink(b)).world, NextRelation(r, n, Teardown(a, TellLink(b))))
  {
    PartedMeans(n.world, r, a, b);
  }

  lemma ReleasedMeans(n: Net, a: Pid, r: Relation)
    requires Known(n) && WorldOk(n.world, n.issued) && Movable(n, a, Release) && Means(n.world, r)
    ensures Means(Moved(n, a, Release).world, NextRelation(r, n, Teardown(a, Release)))
  {
    ReleaseMeans(n, a, r);
  }

  lemma OtherMoves(n: Net, a: Pid, move: Move, r: Relation)
    requires Known(n) && Movable(n, a, move) && !move.TellLink? && !move.Release?
    ensures Moved(n, a, move).world == n.world && NextRelation(r, n, Teardown(a, move)) == r
  {
  }

  lemma MoveMeans(n: Net, a: Pid, move: Move, r: Relation)
    requires Known(n) && WorldOk(n.world, n.issued) && Movable(n, a, move) && Means(n.world, r)
    ensures Means(Moved(n, a, move).world, NextRelation(r, n, Teardown(a, move)))
  {
    if move.TellLink? {
      TellLinkMeans(n, a, move.b, r);
    } else if move.Release? {
      ReleasedMeans(n, a, r);
    } else {
      OtherMoves(n, a, move, r);
    }
  }

  lemma SpawnMeans(n: Net, p: Pid, r: Relation)
    requires Known(n) && Inv(n) && p !in n.stage && Means(n.world, r)
    ensures Means(Born(n, p).world, r)
  {
    var w' := Spawned(n.world, p);
    SpawnedOk(n.world, n.issued, p);
    forall a, b ensures Linked(w', a, b) <==> Linked(n.world, a, b) {
    }
  }

  lemma StepMeans(n: Net, step: Step, r: Relation)
    requires Known(n) && Inv(n) && Enabled(n, step) && Means(n.world, r)
    ensures Means(Next(n, step).world, NextRelation(r, n, step))
  {
    match step
    case Spawn(p) => SpawnMeans(n, p, r);
    case Makes(call) => CallMeans(n, call, r);
    case HandleDown(a) =>
    case TellMonitor(x, ref) =>
      assert Listed(n, x, ref, n.stage[x].downs[ref]);
      ForgottenMeans(n.world, n.issued, r, x, n.stage[x].downs[ref], ref);
    case DeliverDown(a) =>
    case Teardown(a, move) => MoveMeans(n, a, move, r);
  }

  lemma {:induction false} RunMeans(n: Net, steps: seq<Step>, r: Relation)
    requires Known(n) && Inv(n) && Means(n.world, r)
    ensures Means(Run(n, steps).world, RunRelation(r, n, steps))
    decreases |steps|
  {
    if steps != [] {
      NextOk(n, steps[0]);
      if Enabled(n, steps[0]) {
        StepMeans(n, steps[0], r);
        RunMeans(Next(n, steps[0]), steps[1..], NextRelation(r, n, steps[0]));
      } else {
        RunMeans(n, steps[1..], r);
      }
    }
  }

  /** After any run: who is linked to whom, and who monitors whom, in each table, is exactly
      what the record of the steps says. */
  lemma TablesAreARelation(steps: seq<Step>)
    ensures var w, r := Run(EMPTY, steps).world, RunRelation(NONE, EMPTY, steps);
            && (forall a, b :: Linked(w, a, b) <==> (a, b) in r.links)
            && (forall a, ref, b :: Watches(w, a, ref, b) <==> (a, ref, b) in r.monitors)
            && (forall a, ref, b :: WatchedBy(w, b, ref, a) <==> (a, ref, b) in r.monitors)
  {
    RunOk(EMPTY, []);
    RunMeans(EMPTY, steps, NONE);
    RunOk(EMPTY, steps);
    var w, r := Run(EMPTY, steps).world, RunRelation(NONE, EMPTY, steps);
    forall a, ref, b ensures WatchedBy(w, b, ref, a) <==> (a, ref, b) in r.monitors {
      assert Watches(w, a, ref, b) <==> WatchedBy(w, b, ref, a);
    }
  }

  // ---------------------------------------------------------------------
  // Messages
  // ---------------------------------------------------------------------

  /** Monitoring a process that has stopped yields its one Down at once, at the end of the
      mailbox, and no monitor; the watcher must run to get it. */
  lemma StoppedTargetsAreTold(steps: seq<Step>, a: Pid, b: Pid, ref: Ref)
    requires Enabled(Run(EMPTY, steps), Makes(Monitor(a, b, ref))) && Run(EMPTY, steps).stage[b].Stopped?
    ensures var n := Run(EMPTY, steps);
            var n' := Next(n, Makes(Monitor(a, b, ref)));
            && n'.world == n.world && n'.stage == n.stage
            && n'.mail == (if n.stage[a].Running? then n.mail[a := n.mail[a] + [ref]] else n.mail)
            && n'.sent[ref] == (if n.stage[a].Running? then 1 else 0)
  {
    RunOk(EMPTY, steps);
    assert RefOk(Run(EMPTY, steps), ref);
  }

  /** The loop hands the oldest Down to `handle_down`, except one that is to be ignored; that
      one is ignored once. */
  lemma DownsAreHandledInOrder(n: Net, a: Pid)
    requires Known(n) && Enabled(n, HandleDown(a))
    ensures var n', ref := Next(n, HandleDown(a)), n.mail[a][0];
            && n.mail[a] == [ref] + n'.mail[a]
            && n'.seen[ref] == n.seen[ref] + (if ref in n.ignored[a] then 0 else 1)
            && n'.ignored[a] == n.ignored[a] - {ref}
            && (forall x :: x in n.mail && x != a ==> n'.mail[x] == n.mail[x] && n'.ignored[x] == n.ignored[x])
            && n'.world == n.world && n'.stage == n.stage
  {
    assert n.mail[a] == [n.mail[a][0]] + n.mail[a][1..];
  }

  // ---------------------------------------------------------------------
  // Links and teardowns
  // ---------------------------------------------------------------------

  /** The link to `b` is gone, or the teardown still has it on its list. */
  predicate Past(stage: Stage, b: Pid, linked: bool) {
    && (stage.Unlinking? || stage.Leaving? || stage.Stopped?)
    && (linked ==> stage.Unlinking? && b in stage.rest)
  }

  predicate Cutting(n: Net, a: Pid, b: Pid) {
    a in n.stage && b in n.stage && Past(n.stage[a], b, Linked(n.world, a, b))
  }

  predicate Relinks(step: Step, a: Pid, b: Pid) {
    step == Makes(Link(a, b)) || step == Makes(Link(b, a))
  }

  /** Whoever is past its list stays so while no link comes. */
  lemma CuttingIsKept(n: Net, n': Net, a: Pid, b: Pid)
    requires Cutting(n, a, b) && b in n'.stage
    requires a in n'.stage && n'.stage[a] == n.stage[a] && (Linked(n'.world, a, b) ==> Linked(n.world, a, b))
    ensures Cutting(n', a, b)
  {
  }

  lemma CallLinks(n: Net, call: Call, w': World, a: Pid, b: Pid)
    requires Known(n) && Callable(n, call) && w' == Called(n, call).world
    requires !Relinks(Makes(call), a, b) && Linked(w', a, b)
    ensures Linked(n.world, a, b)
  {
    if call.Link? {
      assert w'.links == Joined(n.world.links, call.a, call.b);
    } else if call.Unlink? {
      assert w'.links == Parted(n.world.links, call.a, call.b);
    } else {
      OtherCalls(n, call, w');
    }
  }

  lemma OtherCalls(n: Net, call: Call, w': World)
    requires Known(n) && Callable(n, call) && w' == Called(n, call).world && !call.Link? && !call.Unlink?
    ensures w'.links == n.world.links
  {
  }

  lemma CuttingWhenCalled(n: Net, call: Call, n': Net, a: Pid, b: Pid)
    requires Known(n) && Cutting(n, a, b) && Callable(n, call) && n' == Called(n, call)
    requires !Relinks(Makes(call), a, b)
    ensures Cutting(n', a, b)
  {
    if Linked(n'.world, a, b) {
      CallLinks(n, call, n'.world, a, b);
    }
    CuttingIsKept(n, n', a, b);
  }

  lemma MoveLinks(n: Net, x: Pid, move: Move, w': World, a: Pid, b: Pid)
    requires Known(n) && Movable(n, x, move) && w' == WorldAfter(n, x, move) && Linked(w', a, b)
    ensures Linked(n.world, a, b) && !(move.TellLink? && x == a && move.b == b)
  {
    if move.TellLink? {
      assert w'.links == Parted(n.world.links, x, move.b);
    } else {
      assert w'.links == n.world.links;
    }
  }

  lemma CuttingWhenMoved(n: Net, x: Pid, move: Move, n': Net, a: Pid, b: Pid)
    requires Known(n) && Cutting(n, a, b) && Movable(n, x, move) && n' == Moved(n, x, move)
    ensures Cutting(n', a, b)
  {
    if Linked(n'.world, a, b) {
      MoveLinks(n, x, move, n'.world, a, b);
    }
    if x != a {
      CuttingIsKept(n, n', a, b);
    } else {
      assert n'.stage[a] == StageAfter(n, a, move);
    }
  }

  lemma StillCutting(n: Net, step: Step, n': Net, a: Pid, b: Pid)
    requires Known(n) && Cutting(n, a, b) && !Relinks(step, a, b) && n' == Next(n, step)
    ensures Cutting(n', a, b)
  {
    if Enabled(n, step) {
      if step.Teardown? {
        CuttingWhenMoved(n, step.a, step.move, n', a, b);
      } else if step.Makes? {
        CuttingWhenCalled(n, step.call, n', a, b);
      } else {
        CuttingOtherwise(n, step, n', a, b);
      }
    }
  }

  lemma CuttingOtherwise(n: Net, step: Step, n': Net, a: Pid, b: Pid)
    requires Known(n) && Cutting(n, a, b) && Enabled(n, step) && n' == Next(n, step)
    requires !step.Makes? && !step.Teardown?
    ensures Cutting(n', a, b)
  {
    if step.Spawn? {
      CuttingWhenBorn(n, step.p, n', a, b);
    } else {
      OtherSteps(n, step, n', a);
      CuttingIsKept(n, n', a, b);
    }
  }

  lemma CuttingWhenBorn(n: Net, p: Pid, n': Net, a: Pid, b: Pid)
    requires Known(n) && Cutting(n, a, b) && p !in n.stage && n' == Born(n, p)
    ensures Cutting(n', a, b)
  {
    CuttingIsKept(n, n', a, b);
  }

  lemma OtherSteps(n: Net, step: Step, n': Net, a: Pid)
    requires Known(n) && Enabled(n, step) && n' == Next(n, step)
    requires step.HandleDown? || step.TellMonitor? || step.DeliverDown?
    requires a in n.stage && (n.stage[a].Unlinking? || n.stage[a].Leaving? || n.stage[a].Stopped?)
    ensures n'.world.links == n.world.links && n'.stage.Keys == n.stage.Keys && n'.stage[a] == n.stage[a]
  {
    if step.TellMonitor? {
      assert n' == Told(n, step.a, step.ref);
      assert n'.stage == n.stage[step.a := Sending(n.stage[step.a].downs, step.ref)];
    } else if step.DeliverDown? {
      assert n' == Delivered(n, step.a);
      assert n'.stage == n.stage[step.a := Telling(n.stage[step.a].downs - {n.stage[step.a].ref})];
    } else {
      assert n' == Handled(n, step.a);
    }
  }

  ghost predicate NoRelink(steps: seq<Step>, a: Pid, b: Pid) {
    forall i {:trigger steps[i]} :: 0 <= i < |steps| ==> !Relinks(steps[i], a, b)
  }

  lemma {:induction false} CuttingOverRuns(n: Net, steps: seq<Step>, a: Pid, b: Pid)
    requires Known(n) && Cutting(n, a, b)
    requires NoRelink(steps, a, b)
    ensures Cutting(Run(n, steps), a, b)
    decreases |steps|
  {
    if steps != [] {
      StillCutting(n, steps[0], Next(n, steps[0]), a, b);
      assert NoRelink(steps[1..], a, b) by {
        assert forall i :: 0 <= i < |steps| - 1 ==> steps[1..][i] == steps[i + 1];
      }
      CuttingOverRuns(Next(n, steps[0]), steps[1..], a, b);
    }
  }

  /** Every link that a process has when its teardown lists its links is cut by the time the
      list is done, at both ends, unless somebody links the two anew. */
  lemma ListedLinksAreCut(steps: seq<Step>, a: Pid, b: Pid, more: seq<Step>)
    requires Enabled(Run(EMPTY, steps), Teardown(a, ListLinks)) && b in Run(EMPTY, steps).stage
    requires NoRelink(more, a, b)
    ensures var n := Run(Next(Run(EMPTY, steps), Teardown(a, ListLinks)), more);
            a in n.stage && b in n.stage &&
            (!n.stage[a].Unlinking? ==> !Linked(n.world, a, b) && !Linked(n.world, b, a))
  {
    var n := Run(EMPTY, steps);
    RunOk(EMPTY, steps);
    var n2 := Next(n, Teardown(a, ListLinks));
    ListingCuts(n, n2, a, b);
    CuttingOverRuns(n2, more, a, b);
    NextOk(n, Teardown(a, ListLinks));
    RunOk(n2, more);
    BothEnds(Run(n2, more), a, b);
  }

  lemma ListingCuts(n: Net, n2: Net, a: Pid, b: Pid)
    requires Known(n) && Movable(n, a, ListLinks) && b in n.stage && n2 == Moved(n, a, ListLinks)
    ensures Cutting(n2, a, b)
  {
    assert n2.stage[a] == Unlinking(n.world.links[a]) && n2.world == n.world;
  }

  lemma BothEnds(n: Net, a: Pid, b: Pid)
    requires Known(n) && Inv(n)
    ensures Linked(n.world, a, b) <==> Linked(n.world, b, a)
  {
    assert Symmetric(n.world.links);
  }

  // ---------------------------------------------------------------------
  // Monitors and teardowns
  // ---------------------------------------------------------------------

  /** The monitor under `ref` is gone, or the teardown of its holder has yet to release it. */
  predicate Releasing(n: Net, a: Pid, ref: Ref) {
    && a in n.stage && a in n.world.monitors && ref in n.issued
    && (n.stage[a].Unlinking? || n.stage[a].Leaving? || n.stage[a].Stopped?)
    && (ref in n.world.monitors[a] ==> n.stage[a].Unlinking?)
  }

  lemma ReleasingIsKept(n: Net, n': Net, a: Pid, ref: Ref)
    requires Releasing(n, a, ref) && a in n'.stage && a in n'.world.monitors && ref in n'.issued
    requires n'.stage[a] == n.stage[a] && (ref in n'.world.monitors[a] ==> ref in n.world.monitors[a])
    ensures Releasing(n', a, ref)
  {
  }

  lemma ReleasingWhenCalled(n: Net, call: Call, n': Net, a: Pid, ref: Ref)
    requires Known(n) && Releasing(n, a, ref) && Callable(n, call) && n' == Called(n, call)
    ensures Releasing(n', a, ref)
  {
    if call.Monitor? {
      ReleasingWhenMonitored(n, call.a, call.b, call.ref, n', a, ref);
    } else {
      if call.Demonitor? || call.DemonitorProcess? {
        DemonitorsShrink(n, call, n'.world, a);
      } else {
        LinksSpareMonitors(n, call, n'.world);
      }
      ReleasingIsKept(n, n', a, ref);
    }
  }

  lemma ReleasingWhenMonitored(n: Net, x: Pid, y: Pid, r: Ref, n': Net, a: Pid, ref: Ref)
    requires Known(n) && Releasing(n, a, ref) && Callable(n, Monitor(x, y, r)) && n' == Monitored(n, x, y, r)
    ensures Releasing(n', a, ref)
  {
    var monitors := n.world.monitors;
    assert n'.stage == n.stage && n'.issued == n.issued[r := (x, y)];
    assert n'.world.monitors == if n.stage[y].Stopped? then monitors else monitors[x := monitors[x][r := y]];
  }

  lemma LinksSpareMonitors(n: Net, call: Call, w': World)
    requires Known(n) && Callable(n, call) && w' == Called(n, call).world && (call.Link? || call.Unlink?)
    ensures w'.monitors == n.world.monitors
  {
  }

  lemma DemonitorsShrink(n: Net, call: Call, w': World, a: Pid)
    requires Known(n) && a in n.stage && Callable(n, call) && w' == Called(n, call).world
    requires call.Demonitor? || call.DemonitorProcess?
    ensures a in w'.monitors && w'.monitors[a].Keys <= n.world.monitors[a].Keys
  {
  }

  lemma ReleasingWhenMoved(n: Net, x: Pid, move: Move, n': Net, a: Pid, ref: Ref)
    requires Known(n) && Releasing(n, a, ref) && Movable(n, x, move) && n' == Moved(n, x, move)
    ensures Releasing(n', a, ref)
  {
    MoveMonitors(n, x, move, n'.world, a);
    if x != a {
      ReleasingIsKept(n, n', a, ref);
    } else {
      assert n'.stage[a] == StageAfter(n, a, move);
    }
  }

  lemma MoveMonitors(n: Net, x: Pid, move: Move, w': World, a: Pid)
    requires Known(n) && a in n.stage && Movable(n, x, move) && w' == WorldAfter(n, x, move)
    ensures a in w'.monitors && w'.monitors[a].Keys <= n.world.monitors[a].Keys
    ensures move.Release? && x == a ==> w'.monitors[a] == map[]
  {
  }

  lemma StillReleasing(n: Net, step: Step, n': Net, a: Pid, ref: Ref)
    requires Known(n) && Releasing(n, a, ref) && n' == Next(n, step)
    ensures Releasing(n', a, ref)
  {
    if Enabled(n, step) {
      if step.Teardown? {
        ReleasingWhenMoved(n, step.a, step.move, n', a, ref);
      } else if step.Makes? {
        ReleasingWhenCalled(n, step.call, n', a, ref);
      } else {
        ReleasingOtherwise(n, step, n', a, ref);
      }
    }
  }

  lemma ReleasingOtherwise(n: Net, step: Step, n': Net, a: Pid, ref: Ref)
    requires Known(n) && Releasing(n, a, ref) && Enabled(n, step) && n' == Next(n, step)
    requires !step.Makes? && !step.Teardown?
    ensures Releasing(n', a, ref)
  {
    if step.Spawn? {
      assert n' == Born(n, step.p);
    } else {
      OtherSteps(n, step, n', a);
      OthersMonitors(n, step, n', a);
    }
    ReleasingIsKept(n, n', a, ref);
  }

  lemma OthersMonitors(n: Net, step: Step, n': Net, a: Pid)
    requires Known(n) && a in n.stage && Enabled(n, step) && n' == Next(n, step)
    requires step.HandleDown? || step.TellMonitor? || step.DeliverDown?
    ensures a in n'.world.monitors && n'.world.monitors[a].Keys <= n.world.monitors[a].Keys && n'.issued == n.issued
  {
    if step.TellMonitor? {
      assert n' == Told(n, step.a, step.ref);
    } else if step.DeliverDown? {
      assert n' == Delivered(n, step.a);
    } else {
      assert n' == Handled(n, step.a);
    }
  }

  lemma {:induction false} ReleasingOverRuns(n: Net, steps: seq<Step>, a: Pid, ref: Ref)
    requires Known(n) && Releasing(n, a, ref)
    ensures Releasing(Run(n, steps), a, ref)
    decreases |steps|
  {
    if steps != [] {
      StillReleasing(n, steps[0], Next(n, steps[0]), a, ref);
      ReleasingOverRuns(Next(n, steps[0]), steps[1..], a, ref);
    }
  }

  /** Every monitor that a process made before its teardown was done with its links is given
      up, at both ends, by the time it has stopped. */
  lemma HeldMonitorsAreReleased(steps: seq<Step>, a: Pid, ref: Ref, more: seq<Step>)
    requires a in Run(EMPTY, steps).stage && Run(EMPTY, steps).stage[a].Unlinking? && ref in Run(EMPTY, steps).issued
    ensures var n := Run(Run(EMPTY, steps), more);
            && a in n.stage
            && (!n.stage[a].Unlinking? ==>
                  forall b :: !Watches(n.world, a, ref, b) && !WatchedBy(n.world, b, ref, a))
  {
    var n1 := Run(EMPTY, steps);
    RunOk(EMPTY, steps);
    ReleasingOverRuns(n1, more, a, ref);
    RunOk(n1, more);
    var n := Run(n1, more);
    assert Paired(n.world);
  }
}
