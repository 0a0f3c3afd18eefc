/** When a demonitored process can still be told of a Down, and what `flush` changes. */
module MonitorFlush {
  import opened Identifiers
  import opened Seqs

  import opened MonitorRuns
  import opened Monitors

  /** Whatever happens next, `handle_down` does not get `ref` any more. */
  ghost predicate NeverSeen(n: Net, ref: Ref)
    requires Known(n)
  {
    forall steps :: Run(n, steps).seen[ref] == n.seen[ref]
  }

  /** The Down of `ref` is to be ignored, or it neither lies in `a`'s mailbox nor is due. */
  predicate Silenced(n: Net, a: Pid, ref: Ref, b: Pid)
    requires Known(n)
  {
    a in n.stage && (ref in n.ignored[a] || (!InMail(n, a, ref) && !Listed(n, b, ref, a)))
  }

  ghost predicate Gone(n: Net, a: Pid, ref: Ref, b: Pid)
    requires Known(n)
  {
    ref in n.issued && n.issued[ref] == (a, b) && !Watches(n.world, a, ref, b) && Silenced(n, a, ref, b)
  }

  /** No monitor, mail or list entry appears for `ref`, and it stays ignored if it was. */
  lemma GoneIsKept(n: Net, n': Net, a: Pid, ref: Ref, b: Pid)
    requires Known(n) && Known(n') && Gone(n, a, ref, b)
    requires ref in n'.issued && n'.issued[ref] == (a, b) && a in n'.stage
    requires Watches(n'.world, a, ref, b) ==> Watches(n.world, a, ref, b)
    requires ref in n.ignored[a] ==> ref in n'.ignored[a]
    requires ref !in n.ignored[a] && InMail(n', a, ref) ==> InMail(n, a, ref)
    requires ref !in n.ignored[a] && Listed(n', b, ref, a) ==> Listed(n, b, ref, a)
    ensures Gone(n', a, ref, b)
  {
  }

  /** The Down itself is taken out: it was to be ignored, and no other is there or due. */
  lemma GoneWhenIgnored(n: Net, a: Pid, ref: Ref, b: Pid)
    requires Known(n) && Inv(n) && Gone(n, a, ref, b) && Enabled(n, HandleDown(a)) && n.mail[a][0] == ref
    ensures Gone(Handled(n, a), a, ref, b) && Handled(n, a).seen[ref] == n.seen[ref]
  {
    HeadCount(n.mail[a], ref);
    assert InMail(n, a, ref);
    assert RefOk(n, ref);
    assert n.sent[ref] == 1 && multiset(n.mail[a][1..])[ref] == 0;
    assert !InMail(Handled(n, a), a, ref) && !Listed(Handled(n, a), b, ref, a);
  }

  lemma GoneWhenHandled(n: Net, x: Pid, a: Pid, ref: Ref, b: Pid)
    requires Known(n) && Inv(n) && Gone(n, a, ref, b) && Enabled(n, HandleDown(x))
    ensures Gone(Handled(n, x), a, ref, b) && Handled(n, x).seen[ref] == n.seen[ref]
  {
    HeadCount(n.mail[x], ref);
    assert InMail(n, x, n.mail[x][0]);
    if n.mail[x][0] == ref {
      GoneWhenIgnored(n, a, ref, b);
    } else {
      HandledKeeps(n, x, a, ref, b);
      GoneIsKept(n, Handled(n, x), a, ref, b);
    }
  }

  lemma HandledKeeps(n: Net, x: Pid, a: Pid, ref: Ref, b: Pid)
    requires Known(n) && Enabled(n, HandleDown(x)) && n.mail[x][0] != ref && a in n.stage
    ensures var n' := Handled(n, x);
            && (ref in n.ignored[a] ==> ref in n'.ignored[a])
            && (InMail(n', a, ref) ==> InMail(n, a, ref))
            && n'.seen[ref] == n.seen[ref]
  {
    HeadCount(n.mail[x], ref);
  }

  lemma SentAdds(n: Net, y: Pid, r: Ref, a: Pid, ref: Ref)
    requires Known(n) && y in n.stage
    ensures var n' := Sent(n, y, r);
            && n' == n.(mail := n'.mail, sent := n'.sent)
            && (InMail(n', a, ref) ==> InMail(n, a, ref) || (a == y && r == ref))
  {
    if n.stage[y].Running? && a == y {
      assert ref in n.mail[a] + [r] <==> ref in n.mail[a] || ref == r;
    }
  }

  lemma DeliveredAdds(n: Net, x: Pid, a: Pid, ref: Ref, b: Pid)
    requires Known(n) && Enabled(n, DeliverDown(x))
    ensures var n' := Delivered(n, x);
            && n'.world == n.world && n'.ignored == n.ignored && n'.issued == n.issued && n'.seen == n.seen
            && (n.stage[x].ref != ref && InMail(n', a, ref) ==> InMail(n, a, ref))
            && (Listed(n', b, ref, a) ==> Listed(n, b, ref, a))
  {
    var r := n.stage[x].ref;
    SentAdds(n.(stage := n.stage[x := Telling(n.stage[x].downs - {r})]), n.stage[x].downs[r], r, a, ref);
  }

  lemma GoneWhenDelivered(n: Net, x: Pid, a: Pid, ref: Ref, b: Pid)
    requires Known(n) && Inv(n) && Gone(n, a, ref, b) && Enabled(n, DeliverDown(x))
    ensures Gone(Delivered(n, x), a, ref, b) && Delivered(n, x).seen[ref] == n.seen[ref]
  {
    var r := n.stage[x].ref;
    var y := n.stage[x].downs[r];
    assert Listed(n, x, r, y);
    if r == ref {
      assert x == b && y == a && ref in n.ignored[a];
    }
    DeliveredAdds(n, x, a, ref, b);
    GoneIsKept(n, Delivered(n, x), a, ref, b);
  }

  lemma ToldKeeps(n: Net, x: Pid, r: Ref, a: Pid, ref: Ref, b: Pid)
    requires Known(n) && Enabled(n, TellMonitor(x, r))
    ensures Watches(Told(n, x, r).world, a, ref, b) ==> Watches(n.world, a, ref, b)
    ensures Listed(Told(n, x, r), b, ref, a) ==> Listed(n, b, ref, a)
  {
  }

  lemma GoneWhenTold(n: Net, x: Pid, r: Ref, a: Pid, ref: Ref, b: Pid)
    requires Known(n) && Inv(n) && Gone(n, a, ref, b) && Enabled(n, TellMonitor(x, r))
    ensures Gone(Told(n, x, r), a, ref, b) && Told(n, x, r).seen[ref] == n.seen[ref]
  {
    ToldKeeps(n, x, r, a, ref, b);
    GoneIsKept(n, Told(n, x, r), a, ref, b);
  }

  lemma GoneWhenMoved(n: Net, x: Pid, move: Move, a: Pid, ref: Ref, b: Pid)
    requires Known(n) && Inv(n) && Gone(n, a, ref, b) && Movable(n, x, move)
    ensures Gone(Moved(n, x, move), a, ref, b) && Moved(n, x, move).seen[ref] == n.seen[ref]
  {
    match move
    case ListMonitors => assert !WatchedBy(n.world, b, ref, a);
    case Release => GoneWhenReleased(n, x, a, ref, b);
    case _ =>
  }

  lemma GoneWhenReleased(n: Net, x: Pid, a: Pid, ref: Ref, b: Pid)
    requires Known(n) && Inv(n) && Gone(n, a, ref, b) && Movable(n, x, Release)
    ensures Gone(Moved(n, x, Release), a, ref, b)
  {
    DroppedOk(n.world, n.issued, x, n.world.monitors[x].Keys);
    GoneIsKept(n, Moved(n, x, Release), a, ref, b);
  }

  lemma MonitoredAdds(n: Net, x: Pid, y: Pid, r: Ref, a: Pid, ref: Ref, b: Pid)
    requires Known(n) && Callable(n, Monitor(x, y, r)) && r != ref
    ensures var n' := Monitored(n, x, y, r);
            && (Watches(n'.world, a, ref, b) ==> Watches(n.world, a, ref, b))
            && (InMail(n', a, ref) ==> InMail(n, a, ref))
  {
    SentAdds(n.(issued := n.issued[r := (x, y)]), x, r, a, ref);
  }

  lemma GoneWhenMonitored(n: Net, x: Pid, y: Pid, r: Ref, a: Pid, ref: Ref, b: Pid)
    requires Known(n) && Gone(n, a, ref, b) && Callable(n, Monitor(x, y, r))
    ensures Gone(Monitored(n, x, y, r), a, ref, b) && Monitored(n, x, y, r).seen[ref] == n.seen[ref]
  {
    MonitoredAdds(n, x, y, r, a, ref, b);
    GoneIsKept(n, Monitored(n, x, y, r), a, ref, b);
  }

  lemma GoneWhenDropped(n: Net, x: Pid, refs: set<Ref>, a: Pid, ref: Ref, b: Pid)
    requires Known(n) && Inv(n) && Gone(n, a, ref, b) && x in n.stage
    ensures Gone(n.(world := Dropped(n.world, x, refs)), a, ref, b)
  {
    DroppedOk(n.world, n.issued, x, refs);
    GoneIsKept(n, n.(world := Dropped(n.world, x, refs)), a, ref, b);
  }

  lemma GoneWhenCalled(n: Net, call: Call, a: Pid, ref: Ref, b: Pid)
    requires Known(n) && Inv(n) && Gone(n, a, ref, b) && Callable(n, call)
    ensures Gone(Called(n, call), a, ref, b) && Called(n, call).seen[ref] == n.seen[ref]
  {
    match call
    case Monitor(x, y, r) => GoneWhenMonitored(n, x, y, r, a, ref, b);
    case Demonitor(x, r, flush) => if r in n.world.monitors[x] { GoneWhenDropped(n, x, {r}, a, ref, b); }
    case DemonitorProcess(x, y) => GoneWhenDropped(n, x, RefsFor(n.world, x, y), a, ref, b);
    case _ =>
  }

  lemma GoneWhenBorn(n: Net, p: Pid, a: Pid, ref: Ref, b: Pid)
    requires Known(n) && Inv(n) && Gone(n, a, ref, b) && p !in n.stage
    ensures Gone(Born(n, p), a, ref, b)
  {
    SpawnedWatches(n.world, p, a, ref, b);
    GoneIsKept(n, Born(n, p), a, ref, b);
  }

  lemma GoneStays(n: Net, step: Step, a: Pid, ref: Ref, b: Pid)
    requires Known(n) && Inv(n) && Gone(n, a, ref, b)
    ensures Gone(Next(n, step), a, ref, b) && Next(n, step).seen[ref] == n.seen[ref]
  {
    if Enabled(n, step) {
      match step
      case Spawn(p) => GoneWhenBorn(n, p, a, ref, b);
      case Makes(call) => GoneWhenCalled(n, call, a, ref, b);
      case HandleDown(x) => GoneWhenHandled(n, x, a, ref, b);
      case TellMonitor(x, r) => GoneWhenTold(n, x, r, a, ref, b);
      case DeliverDown(x) => GoneWhenDelivered(n, x, a, ref, b);
      case Teardown(x, move) => GoneWhenMoved(n, x, move, a, ref, b);
    }
  }

  lemma {:induction false} GoneForGood(n: Net, steps: seq<Step>, a: Pid, ref: Ref, b: Pid)
    requires Known(n) && Inv(n) && Gone(n, a, ref, b)
    ensures Run(n, steps).seen[ref] == n.seen[ref]
    decreases |steps|
  {
    if steps != [] {
      NextOk(n, steps[0]);
      GoneStays(n, steps[0], a, ref, b);
      GoneForGood(Next(n, steps[0]), steps[1..], a, ref, b);
    }
  }

  /** A running process that works through its mailbox gets to see a Down lying there. */
  lemma {:induction false} Drain(n: Net, a: Pid, ref: Ref) returns (steps: seq<Step>)
    requires Known(n) && a in n.stage && n.stage[a].Running? && InMail(n, a, ref) && ref !in n.ignored[a]
    ensures Run(n, steps).seen[ref] > n.seen[ref]
    decreases |n.mail[a]|
  {
    var n' := Handled(n, a);
    assert Next(n, HandleDown(a)) == n';
    if n.mail[a][0] == ref {
      steps := [HandleDown(a)];
      assert Run(n, steps) == Run(n', []) by {
        assert steps[1..] == [];
      }
    } else {
      HeadCount(n.mail[a], ref);
      var rest := Drain(n', a, ref);
      steps := [HandleDown(a)] + rest;
      assert steps[1..] == rest;
    }
  }

  /** A teardown that has told `ref` and is sending its Down: it gets there and is seen. */
  lemma SeenWhenSent(n: Net, a: Pid, ref: Ref, b: Pid) returns (steps: seq<Step>)
    requires Known(n) && Inv(n) && a in n.stage && n.stage[a].Running? && ref !in n.ignored[a]
    requires Listed(n, b, ref, a) && n.stage[b].Sending? && n.stage[b].ref == ref
    ensures Run(n, steps).seen[ref] > n.seen[ref]
  {
    var n' := Delivered(n, b);
    assert Next(n, DeliverDown(b)) == n';
    assert n'.mail[a] == n.mail[a] + [ref];
    var rest := Drain(n', a, ref);
    steps := [DeliverDown(b)] + rest;
    assert steps[1..] == rest;
  }

  lemma SeenWhenTold(n: Net, a: Pid, ref: Ref, b: Pid) returns (steps: seq<Step>)
    requires Known(n) && Inv(n) && a in n.stage && n.stage[a].Running? && ref !in n.ignored[a]
    requires Listed(n, b, ref, a) && n.stage[b].Telling?
    ensures Run(n, steps).seen[ref] > n.seen[ref]
  {
    var n' := Told(n, b, ref);
    assert Next(n, TellMonitor(b, ref)) == n';
    ToldOk(n, b, ref);
    var rest := SeenWhenSent(n', a, ref, b);
    steps := [TellMonitor(b, ref)] + rest;
    assert steps[1..] == rest;
  }

  /** The Down being sent before that of `ref` gets out of the way. */
  lemma AfterTheOther(n: Net, a: Pid, ref: Ref, b: Pid)
    requires Known(n) && Inv(n) && a in n.stage && n.stage[a].Running? && ref !in n.ignored[a]
    requires Listed(n, b, ref, a) && n.stage[b].Sending? && n.stage[b].ref != ref
    ensures Enabled(n, DeliverDown(b))
    ensures var n' := Delivered(n, b);
            && Inv(n') && a in n'.stage && n'.stage[a].Running? && ref !in n'.ignored[a]
            && Listed(n', b, ref, a) && n'.stage[b].Telling? && n'.seen == n.seen
  {
    var r := n.stage[b].ref;
    assert SendOk(n, b);
    assert Listed(n, b, r, n.stage[b].downs[r]);
    assert RefOk(n, r);
    DeliveredOk(n, b);
  }

  lemma SeenAfterAll(n: Net, a: Pid, ref: Ref, b: Pid) returns (steps: seq<Step>)
    requires Known(n) && Inv(n) && ref in n.issued && n.issued[ref] == (a, b) && a in n.stage && n.stage[a].Running?
    requires !Silenced(n, a, ref, b)
    ensures Run(n, steps).seen[ref] > n.seen[ref]
  {
    if InMail(n, a, ref) {
      steps := Drain(n, a, ref);
    } else if n.stage[b].Telling? {
      steps := SeenWhenTold(n, a, ref, b);
    } else if n.stage[b].ref == ref {
      steps := SeenWhenSent(n, a, ref, b);
    } else {
      AfterTheOther(n, a, ref, b);
      assert Next(n, DeliverDown(b)) == Delivered(n, b);
      var rest := SeenWhenTold(Delivered(n, b), a, ref, b);
      steps := [DeliverDown(b)] + rest;
      assert steps[1..] == rest;
    }
  }

  lemma SilencedOrSeen(n: Net, a: Pid, ref: Ref, b: Pid)
    requires Known(n) && Inv(n) && ref in n.issued && n.issued[ref] == (a, b) && a in n.stage && n.stage[a].Running?
    requires !Watches(n.world, a, ref, b)
    ensures NeverSeen(n, ref) <==> Silenced(n, a, ref, b)
  {
    if Silenced(n, a, ref, b) {
      forall more ensures Run(n, more).seen[ref] == n.seen[ref] {
        GoneForGood(n, more, a, ref, b);
      }
    } else {
      var more := SeenAfterAll(n, a, ref, b);
      assert Run(n, more).seen[ref] != n.seen[ref];
    }
  }

  /** For a running process that does not monitor under `ref` any more, the Down is out of
      the way exactly when it is ignored, or is neither in the mailbox nor due. */
  lemma DownIsOutOfTheWay(steps: seq<Step>, a: Pid, ref: Ref, b: Pid)
    requires var n := Run(EMPTY, steps);
             ref in n.issued && n.issued[ref] == (a, b) && a in n.stage && n.stage[a].Running?
               && !Watches(n.world, a, ref, b)
    ensures NeverSeen(Run(EMPTY, steps), ref) <==> Silenced(Run(EMPTY, steps), a, ref, b)
  {
    RunOk(EMPTY, steps);
    SilencedOrSeen(Run(EMPTY, steps), a, ref, b);
  }

  /** `demonitor(ref, flush=True)` is meant to keep the Down away, and does so except in one
      case: the monitor was still in force, but the teardown of the monitored process had
      already listed it. Then nothing is put on the ignore list and the Down still comes. */
  lemma FlushKeepsDownAway(steps: seq<Step>, n: Net, a: Pid, ref: Ref, b: Pid)
    requires n == Run(EMPTY, steps)
    requires ref in n.issued && n.issued[ref] == (a, b) && a in n.stage && n.stage[a].Running?
    ensures NeverSeen(Demonitored(n, a, ref, true), ref)
       <==> !(Watches(n.world, a, ref, b) && Listed(n, b, ref, a) && ref !in n.ignored[a])
  {
    RunOk(EMPTY, steps);
    DemonitoredOk(n, a, ref, true);
    AfterDemonitor(n, a, ref, b);
    SilencedOrSeen(Demonitored(n, a, ref, true), a, ref, b);
  }

  lemma AfterDemonitor(n: Net, a: Pid, ref: Ref, b: Pid)
    requires Known(n) && Inv(n) && ref in n.issued && n.issued[ref] == (a, b) && a in n.stage
    ensures var n' := Demonitored(n, a, ref, true);
            && !Watches(n'.world, a, ref, b)
            && (Silenced(n', a, ref, b) <==>
                  !(Watches(n.world, a, ref, b) && Listed(n, b, ref, a) && ref !in n.ignored[a]))
  {
    assert RefOk(n, ref);
    DroppedOk(n.world, n.issued, a, {ref});
    if ref in n.world.monitors[a] {
      assert Watches(n.world, a, ref, n.world.monitors[a][ref]);
      assert !InMail(n, a, ref);
    }
  }

  /** `p` monitors `q` under `ref`, and does not ignore it. */
  ghost predicate InForce(n: Net, p: Pid, q: Pid, ref: Ref) {
    && ref in n.issued && n.issued[ref] == (p, q)
    && Watches(n.world, p, ref, q) && WatchedBy(n.world, q, ref, p)
    && p in n.ignored && ref !in n.ignored[p]
  }

  /** `p` runs and monitors `q` under every ref of `refs`. */
  ghost predicate Monitoring(n: Net, p: Pid, q: Pid, refs: set<Ref>)
    requires Known(n)
  {
    && p in n.stage && q in n.stage && n.stage[p].Running?
    && n.issued.Keys == refs
    && (forall ref {:trigger InForce(n, p, q, ref)} :: ref in refs ==> InForce(n, p, q, ref))
  }

  lemma MonitorStep(n: Net, p: Pid, q: Pid, r: Ref)
    requires Known(n) && Callable(n, Monitor(p, q, r)) && n.stage[q].Running?
    ensures Next(n, Makes(Monitor(p, q, r))) == n.(issued := n.issued[r := (p, q)], world := Watched(n.world, p, q, r))
  {
  }

  lemma MonitorOnce(n: Net, p: Pid, q: Pid, refs: set<Ref>, r: Ref, refs': set<Ref>)
    requires Known(n) && Monitoring(n, p, q, refs) && n.stage[q].Running? && n.ignored[p] == {}
    requires r !in refs && refs' == refs + {r}
    ensures var n' := Next(n, Makes(Monitor(p, q, r)));
            Monitoring(n', p, q, refs') && n'.stage == n.stage && n'.ignored == n.ignored
  {
    MonitorStep(n, p, q, r);
    forall ref | ref in refs' ensures InForce(Next(n, Makes(Monitor(p, q, r))), p, q, ref) {
      assert ref in refs ==> InForce(n, p, q, ref);
      StillInForce(n, p, q, r, ref);
    }
  }

  lemma StillInForce(n: Net, p: Pid, q: Pid, r: Ref, ref: Ref)
    requires Known(n) && p in n.world.links && q in n.world.links
    requires (InForce(n, p, q, ref) || ref == r) && r !in n.ignored[p]
    ensures InForce(n.(issued := n.issued[r := (p, q)], world := Watched(n.world, p, q, r)), p, q, ref)
  {
  }

  lemma MonitorTwice(n: Net, p: Pid, q: Pid, r: Ref, ref: Ref)
    requires Known(n) && Monitoring(n, p, q, {}) && r != ref && n.stage[q].Running? && n.ignored[p] == {}
    ensures var n2 := Next(Next(n, Makes(Monitor(p, q, r))), Makes(Monitor(p, q, ref)));
            Monitoring(n2, p, q, {r, ref}) && n2.stage == n.stage
  {
    MonitorOnce(n, p, q, {}, r, {r});
    MonitorOnce(Next(n, Makes(Monitor(p, q, r))), p, q, {r}, ref, {r, ref});
  }

  lemma ListingSteps(n: Net, q: Pid)
    requires Known(n) && q in n.stage && n.stage[q].Running?
    ensures Next(Next(n, Teardown(q, Close)), Teardown(q, ListMonitors))
         == n.(stage := n.stage[q := Telling(n.world.monitoredBy[q])])
  {
    assert Next(n, Teardown(q, Close)) == n.(stage := n.stage[q := Closed]);
  }

  lemma TellOneOfTwo(n: Net, p: Pid, q: Pid, r: Ref, ref: Ref)
    requires Known(n) && Monitoring(n, p, q, {r, ref}) && p != q && r != ref && n.stage[q].Running?
    ensures var n3 := Next(Next(Next(n, Teardown(q, Close)), Teardown(q, ListMonitors)), TellMonitor(q, r));
            && ref in n3.issued && n3.issued[ref] == (p, q) && p in n3.stage && n3.stage[p].Running?
            && Watches(n3.world, p, ref, q) && Listed(n3, q, ref, p) && ref !in n3.ignored[p]
  {
    var n2 := n.(stage := n.stage[q := Telling(n.world.monitoredBy[q])]);
    ListingSteps(n, q);
    assert InForce(n, p, q, r) && InForce(n, p, q, ref);
    assert Listed(n2, q, r, p) && Listed(n2, q, ref, p);
    var n3 := Told(n2, q, r);
    assert Next(n2, TellMonitor(q, r)) == n3;
    assert Watches(n3.world, p, ref, q) && Listed(n3, q, ref, p);
  }

  lemma TwoBorn(p: Pid, q: Pid)
    requires p != q
    ensures var n := Next(Next(EMPTY, Spawn(p)), Spawn(q));
            Monitoring(n, p, q, {}) && n.stage[q].Running? && n.ignored[p] == {}
  {
    assert Next(EMPTY, Spawn(p)) == Born(EMPTY, p);
  }

  /** Such a run: `p` monitors `q` twice; `q` exits, lists both monitors and is sending the
      first Down when `p` demonitors the second, asking to flush. */
  lemma FlushCanMiss(p: Pid, q: Pid, r: Ref, ref: Ref)
    requires p != q && r != ref
    ensures var n := Run(EMPTY, TwoMonitors(p, q, r, ref));
            p in n.stage && !NeverSeen(Demonitored(n, p, ref, true), ref)
  {
    var n2 := Next(Next(EMPTY, Spawn(p)), Spawn(q));
    TwoBorn(p, q);
    MonitorTwice(n2, p, q, r, ref);
    var n4 := Next(Next(n2, Makes(Monitor(p, q, r))), Makes(Monitor(p, q, ref)));
    TellOneOfTwo(n4, p, q, r, ref);
    var n7 := Next(Next(Next(n4, Teardown(q, Close)), Teardown(q, ListMonitors)), TellMonitor(q, r));
    RunThem(EMPTY, TwoMonitors(p, q, r, ref), n7);
    FlushKeepsDownAway(TwoMonitors(p, q, r, ref), n7, p, ref, q);
  }

  function TwoMonitors(p: Pid, q: Pid, r: Ref, ref: Ref): (steps: seq<Step>)
    ensures |steps| == 7
  {
    [Spawn(p), Spawn(q), Makes(Monitor(p, q, r)), Makes(Monitor(p, q, ref)),
     Teardown(q, Close), Teardown(q, ListMonitors), TellMonitor(q, r)]
  }

  lemma RunThem(n: Net, steps: seq<Step>, n': Net)
    requires Known(n) && |steps| == 7
    requires n' == Next(Next(Next(Next(Next(Next(Next(n,
                        steps[0]), steps[1]), steps[2]), steps[3]), steps[4]), steps[5]), steps[6])
    ensures Run(n, steps) == n'
  {
    RunOne(n, steps);
    var n1 := Next(n, steps[0]);
    RunOne(n1, steps[1..]);
    var n2 := Next(n1, steps[1]);
    RunOne(n2, steps[2..]);
    var n3 := Next(n2, steps[2]);
    RunOne(n3, steps[3..]);
    var n4 := Next(n3, steps[3]);
    RunOne(n4, steps[4..]);
    var n5 := Next(n4, steps[4]);
    RunOne(n5, steps[5..]);
    RunOne(Next(n5, steps[5]), steps[6..]);
  }

  lemma RunOne(n: Net, steps: seq<Step>)
    requires Known(n) && steps != []
    ensures Run(n, steps) == Run(Next(n, steps[0]), steps[1..])
  {
  }
}
