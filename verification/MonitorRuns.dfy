/** Over every interleaving: links and monitors stay two-sided, every monitor yields at most
    one Down, and exactly when `demonitor` with `flush` keeps a Down from being seen. */
module MonitorRuns {
  import opened Identifiers
  import opened Seqs

  import opened Links
  import opened Monitors

  /** Every monitor in force is the one its ref was issued for. */
  ghost predicate AsIssued(w: World, issued: map<Ref, (Pid, Pid)>) {
    forall a, ref, b :: Watches(w, a, ref, b) ==> ref in issued && issued[ref] == (a, b)
  }

  ghost predicate WorldOk(w: World, issued: map<Ref, (Pid, Pid)>) {
    Shaped(w) && TwoSided(w) && AsIssued(w, issued)
  }

  lemma SpawnedWatches(w: World, p: Pid, a: Pid, ref: Ref, b: Pid)
    requires Shaped(w) && p !in w.links
    ensures Watches(Spawned(w, p), a, ref, b) <==> Watches(w, a, ref, b)
    ensures WatchedBy(Spawned(w, p), b, ref, a) <==> WatchedBy(w, b, ref, a)
  {
  }

  lemma SpawnedOk(w: World, issued: map<Ref, (Pid, Pid)>, p: Pid)
    requires WorldOk(w, issued) && p !in w.links
    ensures WorldOk(Spawned(w, p), issued)
    ensures forall a, ref, b :: Watches(Spawned(w, p), a, ref, b) <==> Watches(w, a, ref, b)
  {
    assert Symmetric(Spawned(w, p).links);
    forall a, ref, b
      ensures Watches(Spawned(w, p), a, ref, b) <==> Watches(w, a, ref, b)
      ensures WatchedBy(Spawned(w, p), b, ref, a) <==> WatchedBy(w, b, ref, a)
    {
      SpawnedWatches(w, p, a, ref, b);
    }
  }

  lemma WatchedOk(w: World, issued: map<Ref, (Pid, Pid)>, a: Pid, b: Pid, ref: Ref)
    requires WorldOk(w, issued) && a in w.links && b in w.links && ref !in issued
    ensures WorldOk(Watched(w, a, b, ref), issued[ref := (a, b)])
  {
    var w' := Watched(w, a, b, ref);
    forall x, r, y
      ensures Watches(w', x, r, y) <==> Watches(w, x, r, y) || (x == a && r == ref && y == b)
      ensures WatchedBy(w', y, r, x) <==> WatchedBy(w, y, r, x) || (x == a && r == ref && y == b)
    {
      assert Watches(w, x, r, y) <==> WatchedBy(w, y, r, x);
      if r == ref {
        NotIssued(w, issued, a, ref);
        NotIssued(w, issued, b, ref);
      }
    }
  }

  lemma NotIssued(w: World, issued: map<Ref, (Pid, Pid)>, x: Pid, ref: Ref)
    requires WorldOk(w, issued) && x in w.links && ref !in issued
    ensures ref !in w.monitors[x] && ref !in w.monitoredBy[x]
  {
    if ref in w.monitors[x] {
      assert Watches(w, x, ref, w.monitors[x][ref]);
    }
    if ref in w.monitoredBy[x] {
      assert WatchedBy(w, x, ref, w.monitoredBy[x][ref]);
    }
  }

  lemma DroppedOk(w: World, issued: map<Ref, (Pid, Pid)>, a: Pid, refs: set<Ref>)
    requires WorldOk(w, issued) && a in w.links
    ensures WorldOk(Dropped(w, a, refs), issued)
    ensures forall x, r, y :: Watches(Dropped(w, a, refs), x, r, y) <==> Watches(w, x, r, y) && !(x == a && r in refs)
  {
    var w' := Dropped(w, a, refs);
    forall x, r, y
      ensures Watches(w', x, r, y) <==> Watches(w, x, r, y) && !(x == a && r in refs)
      ensures WatchedBy(w', y, r, x) <==> WatchedBy(w, y, r, x) && !(x == a && r in refs)
    {
      assert Watches(w, x, r, y) <==> WatchedBy(w, y, r, x);
      assert Watches(w, a, r, y) <==> WatchedBy(w, y, r, a);
    }
  }

  lemma ForgottenOk(w: World, issued: map<Ref, (Pid, Pid)>, b: Pid, a: Pid, ref: Ref)
    requires WorldOk(w, issued) && a in w.links && b in w.links && ref in issued && issued[ref] == (a, b)
    ensures WorldOk(Forgotten(w, b, a, ref), issued)
    ensures forall x, r, y :: Watches(Forgotten(w, b, a, ref), x, r, y) <==> Watches(w, x, r, y) && r != ref
  {
    var w' := Forgotten(w, b, a, ref);
    forall x, r, y
      ensures Watches(w', x, r, y) <==> Watches(w, x, r, y) && r != ref
      ensures WatchedBy(w', y, r, x) <==> WatchedBy(w, y, r, x) && r != ref
    {
      assert Watches(w, x, r, y) <==> WatchedBy(w, y, r, x);
    }
  }

  predicate Reporting(stage: Stage) {
    stage.Telling? || stage.Sending?
  }

  /** The teardown of `b` still has to tell `a` under `ref`, or is about to. */
  predicate Listed(n: Net, b: Pid, ref: Ref, a: Pid) {
    b in n.stage && Reporting(n.stage[b]) && ref in n.stage[b].downs && n.stage[b].downs[ref] == a
  }

  /** A monitor whose Down is being sent is not in force any more. */
  ghost predicate SendOk(n: Net, b: Pid) {
    b in n.stage && n.stage[b].Sending? ==>
      n.stage[b].ref in n.stage[b].downs && !Watches(n.world, n.stage[b].downs[n.stage[b].ref], n.stage[b].ref, b)
  }

  ghost predicate SendsOk(n: Net) {
    forall b {:trigger SendOk(n, b)} :: SendOk(n, b)
  }

  ghost predicate ListsOk(n: Net) {
    forall b, ref, a :: Listed(n, b, ref, a) ==> ref in n.issued && n.issued[ref] == (a, b)
  }

  predicate InMail(n: Net, a: Pid, ref: Ref) {
    a in n.mail && ref in n.mail[a]
  }

  /** A Down only ever reaches the process its ref was issued to. */
  ghost predicate MailOk(n: Net) {
    forall a, ref :: InMail(n, a, ref) ==> ref in n.issued && n.issued[ref].0 == a
  }

  /** The Down of one ref: sent at most once, and then no longer due; it lies in the
      mailbox or was handled, or was ignored. */
  ghost predicate RefOk(n: Net, ref: Ref)
    requires Known(n)
  {
    if ref in n.issued then
      var (a, b) := n.issued[ref];
      && a in n.stage && b in n.stage
      && n.sent[ref] <= 1
      && (n.sent[ref] == 1 ==> !Watches(n.world, a, ref, b) && !Listed(n, b, ref, a))
      && multiset(n.mail[a])[ref] + n.seen[ref] <= n.sent[ref]
    else n.sent[ref] == 0 && n.seen[ref] == 0
  }

  ghost predicate RefsOk(n: Net)
    requires Known(n)
  {
    forall ref :: RefOk(n, ref)
  }

  ghost predicate Inv(n: Net)
    requires Known(n)
  {
    WorldOk(n.world, n.issued) && ListsOk(n) && SendsOk(n) && MailOk(n) && RefsOk(n)
  }

  /** Nothing is listed, mailed, sent or monitored that was not before. */
  lemma NothingNew(n: Net, n': Net)
    requires Known(n) && Known(n') && ListsOk(n) && MailOk(n) && RefsOk(n)
    requires n'.issued == n.issued && n'.sent == n.sent && n'.seen == n.seen && n.stage.Keys <= n'.stage.Keys
    requires forall a :: a in n.mail ==> n'.mail[a] == n.mail[a]
    requires forall a :: a in n'.mail && a !in n.mail ==> n'.mail[a] == []
    requires forall b, ref, a :: Listed(n', b, ref, a) ==> Listed(n, b, ref, a)
    requires forall a, ref, b :: Watches(n'.world, a, ref, b) ==> Watches(n.world, a, ref, b)
    ensures ListsOk(n') && MailOk(n') && RefsOk(n')
  {
    forall ref ensures RefOk(n', ref) {
      assert RefOk(n, ref);
    }
    forall a, ref | InMail(n', a, ref) ensures InMail(n, a, ref) {
    }
  }

  /** Nothing is being sent that was not before, and no monitor is added. */
  lemma NothingNewSent(n: Net, n': Net)
    requires SendsOk(n)
    requires forall b :: b in n'.stage && n'.stage[b].Sending? ==> b in n.stage && n.stage[b] == n'.stage[b]
    requires forall a, ref, b :: Watches(n'.world, a, ref, b) ==> Watches(n.world, a, ref, b)
    ensures SendsOk(n')
  {
    forall b ensures SendOk(n', b) {
      assert SendOk(n, b);
    }
  }

  lemma SpawnOk(n: Net, p: Pid)
    requires Known(n) && Inv(n) && p !in n.stage
    ensures Inv(Born(n, p))
  {
    SpawnedOk(n.world, n.issued, p);
    BornIsNew(n, p);
  }

  lemma BornIsNew(n: Net, p: Pid)
    requires Known(n) && ListsOk(n) && SendsOk(n) && MailOk(n) && RefsOk(n) && p !in n.stage
    requires forall a, ref, b :: Watches(Spawned(n.world, p), a, ref, b) <==> Watches(n.world, a, ref, b)
    ensures var n' := Born(n, p); ListsOk(n') && SendsOk(n') && MailOk(n') && RefsOk(n')
  {
    BornKeepsLists(n, p);
    BornKeepsMail(n, p);
    assert SendsOk(Born(n, p)) by { NothingNewSent(n, Born(n, p)); }
    NothingNew(n, Born(n, p));
  }

  lemma BornKeepsLists(n: Net, p: Pid)
    requires Known(n) && p !in n.stage
    ensures forall b, ref, a :: Listed(Born(n, p), b, ref, a) ==> Listed(n, b, ref, a)
    ensures forall b ::
      b in Born(n, p).stage && Born(n, p).stage[b].Sending? ==> b in n.stage && n.stage[b] == Born(n, p).stage[b]
  {
  }

  lemma BornKeepsMail(n: Net, p: Pid)
    requires Known(n) && p !in n.stage
    ensures forall a :: a in n.mail ==> a in Born(n, p).mail && Born(n, p).mail[a] == n.mail[a]
    ensures forall a :: a in Born(n, p).mail && a !in n.mail ==> Born(n, p).mail[a] == []
  {
  }

  /** Only the world changes, and no monitor is added. */
  lemma WorldStepOk(n: Net, world: World)
    requires Known(n) && Inv(n) && WorldOk(world, n.issued) && world.links.Keys == n.world.links.Keys
    requires forall a, ref, b :: Watches(world, a, ref, b) ==> Watches(n.world, a, ref, b)
    ensures Known(n.(world := world)) && Inv(n.(world := world))
  {
    NothingNew(n, n.(world := world));
    NothingNewSent(n, n.(world := world));
  }

  lemma LinksStepOk(n: Net, links: Graph)
    requires Known(n) && Inv(n) && Symmetric(links) && links.Keys == n.world.links.Keys
    ensures Known(n.(world := n.world.(links := links))) && Inv(n.(world := n.world.(links := links)))
  {
    var w := n.world.(links := links);
    forall a, ref, b
      ensures Watches(w, a, ref, b) <==> Watches(n.world, a, ref, b)
      ensures WatchedBy(w, b, ref, a) <==> WatchedBy(n.world, b, ref, a)
    {
    }
    WorldStepOk(n, w);
  }

  /** Only a stage changes, and no ref is listed anew. */
  lemma StageStepOk(n: Net, x: Pid, stage: Stage)
    requires Known(n) && Inv(n) && x in n.stage
    requires Reporting(stage) ==> forall ref :: ref in stage.downs ==> Listed(n, x, ref, stage.downs[ref])
    requires stage.Sending? ==> stage.ref in stage.downs && !Watches(n.world, stage.downs[stage.ref], stage.ref, x)
    ensures Inv(n.(stage := n.stage[x := stage]))
  {
    var n' := n.(stage := n.stage[x := stage]);
    NothingNew(n, n');
    forall b ensures SendOk(n', b) {
      assert SendOk(n, b);
    }
  }

  /** A teardown past its monitors moves on. */
  lemma LeavingOk(n: Net, x: Pid, stage: Stage)
    requires Known(n) && Inv(n) && x in n.stage && !Reporting(stage)
    ensures Inv(n.(stage := n.stage[x := stage]))
  {
    StageStepOk(n, x, stage);
  }

  lemma ListMonitorsOk(n: Net, x: Pid)
    requires Known(n) && Inv(n) && x in n.stage
    ensures Inv(n.(stage := n.stage[x := Telling(n.world.monitoredBy[x])]))
  {
    var n' := n.(stage := n.stage[x := Telling(n.world.monitoredBy[x])]);
    forall b, ref, a | Listed(n', b, ref, a) ensures Listed(n, b, ref, a) || (b == x && Watches(n.world, a, ref, b)) {
      if b == x { assert WatchedBy(n.world, b, ref, a); }
    }
    forall ref ensures RefOk(n', ref) {
      assert RefOk(n, ref);
    }
    forall a, ref | InMail(n', a, ref) ensures InMail(n, a, ref) {
    }
    NothingNewSent(n, n');
  }

  /** A Down that is not due any more and was not sent yet is sent. */
  lemma SentOk(n: Net, a: Pid, ref: Ref)
    requires Known(n) && Inv(n) && ref in n.issued && n.issued[ref].0 == a && a in n.stage && n.sent[ref] == 0
    requires !Watches(n.world, a, ref, n.issued[ref].1) && !Listed(n, n.issued[ref].1, ref, a)
    ensures Inv(Sent(n, a, ref))
  {
    var n' := Sent(n, a, ref);
    if n.stage[a].Running? {
      assert n'.mail[a] == n.mail[a] + [ref];
      forall r ensures RefOk(n', r) {
        assert RefOk(n, r);
      }
      forall x, r | InMail(n', x, r) ensures InMail(n, x, r) || (x == a && r == ref) {
      }
      forall b, r, x | Listed(n', b, r, x) ensures Listed(n, b, r, x) {
      }
      NothingNewSent(n, n');
    }
  }

  lemma ToldOk(n: Net, x: Pid, ref: Ref)
    requires Known(n) && Inv(n) && Enabled(n, TellMonitor(x, ref))
    ensures Inv(Told(n, x, ref))
  {
    var a := n.stage[x].downs[ref];
    assert Listed(n, x, ref, a);
    ForgottenOk(n.world, n.issued, x, a, ref);
    WorldStepOk(n, Forgotten(n.world, x, a, ref));
    StageStepOk(n.(world := Forgotten(n.world, x, a, ref)), x, Sending(n.stage[x].downs, ref));
  }

  lemma DeliveredOk(n: Net, x: Pid)
    requires Known(n) && Inv(n) && Enabled(n, DeliverDown(x))
    ensures Inv(Delivered(n, x))
  {
    var ref := n.stage[x].ref;
    var a, stage := n.stage[x].downs[ref], Telling(n.stage[x].downs - {ref});
    assert SendOk(n, x);
    assert Listed(n, x, ref, a);
    assert RefOk(n, ref);
    StageStepOk(n, x, stage);
    SentOk(n.(stage := n.stage[x := stage]), a, ref);
  }

  lemma NotIssuedYet(n: Net, a: Pid, b: Pid, ref: Ref)
    requires Known(n) && Inv(n) && ref !in n.issued
    ensures !Watches(n.world, a, ref, b) && !Listed(n, b, ref, a) && !InMail(n, a, ref) && n.sent[ref] == 0
  {
    assert RefOk(n, ref);
  }

  /** Lists, mail and sends speak of refs issued before. */
  lemma IssueKeepsLists(n: Net, a: Pid, b: Pid, ref: Ref)
    requires Known(n) && ListsOk(n) && SendsOk(n) && MailOk(n) && ref !in n.issued
    ensures var n' := n.(issued := n.issued[ref := (a, b)]); ListsOk(n') && SendsOk(n') && MailOk(n')
  {
    var n' := n.(issued := n.issued[ref := (a, b)]);
    forall x, r | InMail(n', x, r) ensures InMail(n, x, r) {
    }
    forall y, r, x | Listed(n', y, r, x) ensures Listed(n, y, r, x) {
    }
    NothingNewSent(n, n');
  }

  lemma IssueOk(n: Net, a: Pid, b: Pid, ref: Ref)
    requires Known(n) && Inv(n) && a in n.stage && b in n.stage && ref !in n.issued
    ensures Inv(n.(issued := n.issued[ref := (a, b)]))
  {
    var n' := n.(issued := n.issued[ref := (a, b)]);
    IssueKeepsLists(n, a, b, ref);
    NotIssuedYet(n, a, b, ref);
    forall r ensures RefOk(n', r) {
      assert RefOk(n, r);
    }
  }

  lemma MonitoredOk(n: Net, a: Pid, b: Pid, ref: Ref)
    requires Known(n) && Inv(n) && Callable(n, Monitor(a, b, ref))
    ensures Inv(Monitored(n, a, b, ref))
  {
    NotIssuedYet(n, a, b, ref);
    IssueOk(n, a, b, ref);
    var n1 := n.(issued := n.issued[ref := (a, b)]);
    if n.stage[b].Stopped? {
      SentOk(n1, a, ref);
    } else {
      WatchedOk(n.world, n.issued, a, b, ref);
      NewlyWatched(n1, a, b, ref);
    }
  }

  lemma NewlyWatched(n: Net, a: Pid, b: Pid, ref: Ref)
    requires !Listed(n, b, ref, a)
    requires Known(n) && Inv(n) && a in n.stage && b in n.stage && ref in n.issued && n.issued[ref] == (a, b)
    requires n.sent[ref] == 0 && WorldOk(Watched(n.world, a, b, ref), n.issued)
    ensures Inv(n.(world := Watched(n.world, a, b, ref)))
  {
    var n' := n.(world := Watched(n.world, a, b, ref));
    forall r ensures RefOk(n', r) {
      assert RefOk(n, r);
    }
    forall x, r | InMail(n', x, r) ensures InMail(n, x, r) {
    }
    forall y, r, x | Listed(n', y, r, x) ensures Listed(n, y, r, x) {
    }
    forall y ensures SendOk(n', y) {
      assert SendOk(n, y);
      if y in n.stage && n.stage[y].Sending? {
        assert Listed(n, y, n.stage[y].ref, n.stage[y].downs[n.stage[y].ref]);
      }
    }
  }

  lemma DemonitoredOk(n: Net, a: Pid, ref: Ref, flush: bool)
    requires Known(n) && Inv(n) && a in n.stage
    ensures Inv(Demonitored(n, a, ref, flush))
  {
    if ref in n.world.monitors[a] {
      DroppedOk(n.world, n.issued, a, {ref});
      WorldStepOk(n, Dropped(n.world, a, {ref}));
    } else {
      NothingNew(n, Demonitored(n, a, ref, flush));
      NothingNewSent(n, Demonitored(n, a, ref, flush));
    }
  }

  lemma HandledRef(n: Net, a: Pid, r: Ref)
    requires Known(n) && RefsOk(n) && MailOk(n) && Enabled(n, HandleDown(a))
    ensures RefOk(Handled(n, a), r)
  {
    HeadCount(n.mail[a], r);
    assert InMail(n, a, n.mail[a][0]);
    assert RefOk(n, r);
  }

  lemma HandledOk(n: Net, a: Pid)
    requires Known(n) && Inv(n) && Enabled(n, HandleDown(a))
    ensures Inv(Handled(n, a))
  {
    var n' := Handled(n, a);
    forall r ensures RefOk(n', r) {
      HandledRef(n, a, r);
    }
    forall x, r | InMail(n', x, r) ensures InMail(n, x, r) {
      HeadCount(n.mail[a], r);
    }
    forall b, r, x | Listed(n', b, r, x) ensures Listed(n, b, r, x) {
    }
    NothingNewSent(n, n');
  }

  lemma TellLinkOk(n: Net, a: Pid, b: Pid)
    requires Known(n) && Inv(n) && Movable(n, a, TellLink(b))
    ensures Inv(Moved(n, a, TellLink(b)))
  {
    PartedIsTwoSided(n.world.links, a, b);
    LinksStepOk(n, Parted(n.world.links, a, b));
    LeavingOk(n.(world := n.world.(links := Parted(n.world.links, a, b))), a, Unlinking(n.stage[a].rest - {b}));
  }

  lemma DropOk(n: Net, a: Pid, refs: set<Ref>)
    requires Known(n) && Inv(n) && a in n.stage
    ensures Known(n.(world := Dropped(n.world, a, refs))) && Inv(n.(world := Dropped(n.world, a, refs)))
  {
    DroppedOk(n.world, n.issued, a, refs);
    WorldStepOk(n, Dropped(n.world, a, refs));
  }

  lemma ReleaseOk(n: Net, a: Pid)
    requires Known(n) && Inv(n) && Movable(n, a, Release)
    ensures Inv(Moved(n, a, Release))
  {
    DropOk(n, a, n.world.monitors[a].Keys);
    LeavingOk(n.(world := Dropped(n.world, a, n.world.monitors[a].Keys)), a, Leaving);
  }

  lemma MovedOk(n: Net, a: Pid, move: Move)
    requires Known(n) && Inv(n) && Movable(n, a, move)
    ensures Inv(Moved(n, a, move))
  {
    match move
    case ListMonitors => ListMonitorsOk(n, a);
    case TellLink(b) => TellLinkOk(n, a, b);
    case Release => ReleaseOk(n, a);
    case _ => LeavingOk(n, a, StageAfter(n, a, move));
  }

  lemma LinkedOk(n: Net, links: Graph, a: Pid, b: Pid)
    requires Known(n) && Inv(n) && a in n.stage && b in n.stage
    requires links == Joined(n.world.links, a, b) || links == Parted(n.world.links, a, b)
    ensures Inv(n.(world := n.world.(links := links)))
  {
    JoinedIsTwoSided(n.world.links, a, b);
    PartedIsTwoSided(n.world.links, a, b);
    LinksStepOk(n, links);
  }

  lemma CalledOk(n: Net, call: Call)
    requires Known(n) && Inv(n) && Callable(n, call)
    ensures Inv(Called(n, call))
  {
    match call
    case Link(a, b) => LinkedOk(n, Joined(n.world.links, a, b), a, b);
    case Unlink(a, b) => LinkedOk(n, Parted(n.world.links, a, b), a, b);
    case Monitor(a, b, ref) => MonitoredOk(n, a, b, ref);
    case Demonitor(a, ref, flush) => DemonitoredOk(n, a, ref, flush);
    case DemonitorProcess(a, b) => DropOk(n, a, RefsFor(n.world, a, b));
  }

  lemma NextOk(n: Net, step: Step)
    requires Known(n) && Inv(n)
    ensures Inv(Next(n, step))
  {
    if Enabled(n, step) {
      match step
      case Spawn(p) => SpawnOk(n, p);
      case Makes(call) => CalledOk(n, call);
      case HandleDown(a) => HandledOk(n, a);
      case TellMonitor(a, ref) => ToldOk(n, a, ref);
      case DeliverDown(a) => DeliveredOk(n, a);
      case Teardown(a, move) => MovedOk(n, a, move);
    }
  }

  lemma {:induction false} RunOk(n: Net, steps: seq<Step>)
    requires Known(n) && Inv(n)
    ensures Inv(Run(n, steps))
    decreases |steps|
  {
    if steps != [] {
      NextOk(n, steps[0]);
      RunOk(Next(n, steps[0]), steps[1..]);
    }
  }

  /** In every run: each link is known at both ends; each monitor is known at both ends,
      under the same ref; a ref yields at most one Down, which goes to the process it was
      issued to, and reaches `handle_down` at most once. */
  lemma AlwaysTwoSided(steps: seq<Step>)
    ensures TwoSided(Run(EMPTY, steps).world)
    ensures forall ref :: Run(EMPTY, steps).seen[ref] <= Run(EMPTY, steps).sent[ref] <= 1
    ensures MailOk(Run(EMPTY, steps))
  {
    RunOk(EMPTY, steps);
    forall ref ensures Run(EMPTY, steps).seen[ref] <= Run(EMPTY, steps).sent[ref] <= 1 {
      assert RefOk(Run(EMPTY, steps), ref);
    }
  }

  // ---------------------------------------------------------------------
  // Downs that must come, and Downs that must not
  // ---------------------------------------------------------------------

  predicate Ended(stage: Stage) {
    Reporting(stage) || stage.Unlinking? || stage.Leaving? || stage.Stopped?
  }

  /** The Down of a listed monitor is still due or was sent, unless the watcher has gone. */
  ghost predicate Coming(n: Net, a: Pid, ref: Ref, b: Pid) {
    a in n.stage && b in n.stage && (n.stage[a].Running? ==> Listed(n, b, ref, a) || 1 <= n.sent[ref])
  }

  /** A process that runs did so before, and no list entry or Down goes. */
  lemma ComingIsKept(n: Net, n': Net, a: Pid, ref: Ref, b: Pid)
    requires Coming(n, a, ref, b) && a in n'.stage && b in n'.stage && n.sent[ref] <= n'.sent[ref]
    requires n'.stage[a].Running? ==> n.stage[a].Running?
    requires Listed(n, b, ref, a) ==> Listed(n', b, ref, a)
    ensures Coming(n', a, ref, b)
  {
  }

  lemma ComingWhenTold(n: Net, x: Pid, r: Ref, a: Pid, ref: Ref, b: Pid)
    requires Known(n) && Coming(n, a, ref, b) && Enabled(n, TellMonitor(x, r))
    ensures Coming(Told(n, x, r), a, ref, b)
  {
    ComingIsKept(n, Told(n, x, r), a, ref, b);
  }

  lemma ComingWhenDelivered(n: Net, x: Pid, a: Pid, ref: Ref, b: Pid)
    requires Known(n) && Coming(n, a, ref, b) && Enabled(n, DeliverDown(x))
    ensures Coming(Delivered(n, x), a, ref, b)
  {
    var n' := Delivered(n, x);
    if !(x == b && n.stage[x].ref == ref) {
      ComingIsKept(n, n', a, ref, b);
    }
  }

  /** Moving on never goes backwards, and leaves the monitors only when all are told. */
  lemma MovesForward(n: Net, a: Pid, move: Move)
    requires Known(n) && Movable(n, a, move)
    ensures Ended(n.stage[a]) ==> Ended(StageAfter(n, a, move))
    ensures Reporting(n.stage[a]) ==> n.stage[a].downs == map[]
  {
  }

  lemma SentGrows(n: Net, a: Pid, b: Pid, r: Ref, ref: Ref)
    requires Known(n) && Callable(n, Monitor(a, b, r))
    ensures n.sent[ref] <= Monitored(n, a, b, r).sent[ref]
  {
  }

  lemma ComingWhenMoved(n: Net, x: Pid, move: Move, a: Pid, ref: Ref, b: Pid)
    requires Known(n) && Coming(n, a, ref, b) && Movable(n, x, move)
    ensures Coming(Moved(n, x, move), a, ref, b)
  {
    MovesForward(n, x, move);
    ComingIsKept(n, Moved(n, x, move), a, ref, b);
  }

  lemma ComingWhenCalled(n: Net, call: Call, a: Pid, ref: Ref, b: Pid)
    requires Known(n) && Coming(n, a, ref, b) && Callable(n, call)
    ensures Coming(Called(n, call), a, ref, b)
  {
    if call.Monitor? { SentGrows(n, call.a, call.b, call.ref, ref); }
    ComingIsKept(n, Called(n, call), a, ref, b);
  }

  lemma ComingWhenBorn(n: Net, p: Pid, a: Pid, ref: Ref, b: Pid)
    requires Known(n) && Coming(n, a, ref, b) && p !in n.stage
    ensures Coming(Born(n, p), a, ref, b)
  {
    ComingIsKept(n, Born(n, p), a, ref, b);
  }

  lemma ComingWhenHandled(n: Net, x: Pid, a: Pid, ref: Ref, b: Pid)
    requires Known(n) && Coming(n, a, ref, b) && Enabled(n, HandleDown(x))
    ensures Coming(Handled(n, x), a, ref, b)
  {
    ComingIsKept(n, Handled(n, x), a, ref, b);
  }

  lemma StillComing(n: Net, step: Step, a: Pid, ref: Ref, b: Pid)
    requires Known(n) && Coming(n, a, ref, b)
    ensures Coming(Next(n, step), a, ref, b)
  {
    if Enabled(n, step) {
      if step.Teardown? {
        ComingWhenMoved(n, step.a, step.move, a, ref, b);
      } else if step.Makes? {
        ComingWhenCalled(n, step.call, a, ref, b);
      } else {
        ComingOtherwise(n, step, a, ref, b);
      }
    }
  }

  lemma ComingOtherwise(n: Net, step: Step, a: Pid, ref: Ref, b: Pid)
    requires Known(n) && Coming(n, a, ref, b) && Enabled(n, step) && !step.Makes? && !step.Teardown?
    ensures Coming(Next(n, step), a, ref, b)
  {
    match step
    case Spawn(p) => ComingWhenBorn(n, p, a, ref, b);
    case HandleDown(x) => ComingWhenHandled(n, x, a, ref, b);
    case TellMonitor(x, r) => ComingWhenTold(n, x, r, a, ref, b);
    case DeliverDown(x) => ComingWhenDelivered(n, x, a, ref, b);
  }

  lemma {:induction false} ComingOverRuns(n: Net, steps: seq<Step>, a: Pid, ref: Ref, b: Pid)
    requires Known(n) && Coming(n, a, ref, b)
    ensures Coming(Run(n, steps), a, ref, b)
    decreases |steps|
  {
    if steps != [] {
      StillComing(n, steps[0], a, ref, b);
      ComingOverRuns(Next(n, steps[0]), steps[1..], a, ref, b);
    }
  }

  lemma ListedIsComing(n: Net, a: Pid, ref: Ref, b: Pid)
    requires Known(n) && Inv(n) && Movable(n, b, ListMonitors) && Watches(n.world, a, ref, b)
    ensures Coming(Moved(n, b, ListMonitors), a, ref, b) && Inv(Moved(n, b, ListMonitors))
  {
    MovedOk(n, b, ListMonitors);
    assert WatchedBy(n.world, b, ref, a);
  }

  /** A monitor in force when the teardown of `b` lists its monitors yields exactly one Down
      by the time the list is done, if its watcher still runs. */
  lemma ListedMonitorsAreTold(steps: seq<Step>, n1: Net, more: seq<Step>, n2: Net, a: Pid, ref: Ref, b: Pid)
    requires n1 == Run(EMPTY, steps) && b in n1.stage && n1.stage[b].Closed? && Watches(n1.world, a, ref, b)
    requires n2 == Run(Moved(n1, b, ListMonitors), more)
    requires a in n2.stage && n2.stage[a].Running? && b in n2.stage && !Reporting(n2.stage[b])
    ensures n2.sent[ref] == 1
  {
    assert Inv(n1) by { RunOk(EMPTY, steps); }
    ListedIsComing(n1, a, ref, b);
    ComesInTheEnd(Moved(n1, b, ListMonitors), more, a, ref, b);
  }

  lemma ComesInTheEnd(n: Net, more: seq<Step>, a: Pid, ref: Ref, b: Pid)
    requires Known(n) && Inv(n) && Coming(n, a, ref, b)
    requires var n' := Run(n, more); a in n'.stage && n'.stage[a].Running? && b in n'.stage && !Reporting(n'.stage[b])
    ensures Run(n, more).sent[ref] == 1
  {
    ComingOverRuns(n, more, a, ref, b);
    RunOk(n, more);
    assert RefOk(Run(n, more), ref);
  }

  /** The Down of `ref` was not sent, and `b`, past its list without it, will not send it. */
  ghost predicate TooLate(n: Net, ref: Ref, b: Pid) {
    && ref in n.issued && n.issued[ref].1 == b && b in n.stage && Ended(n.stage[b])
    && n.sent[ref] == 0 && !Listed(n, b, ref, n.issued[ref].0)
  }

  /** Nothing is sent under `ref`, and the list of `b` does not grow. */
  lemma TooLateIsKept(n: Net, n': Net, ref: Ref, b: Pid)
    requires TooLate(n, ref, b) && n'.sent[ref] == n.sent[ref] && ref in n'.issued && n'.issued[ref] == n.issued[ref]
    requires b in n'.stage && Ended(n'.stage[b])
    requires Listed(n', b, ref, n.issued[ref].0) ==> Listed(n, b, ref, n.issued[ref].0)
    ensures TooLate(n', ref, b)
  {
  }

  lemma TooLateWhenDelivered(n: Net, x: Pid, ref: Ref, b: Pid)
    requires Known(n) && ListsOk(n) && TooLate(n, ref, b) && Enabled(n, DeliverDown(x))
    ensures TooLate(Delivered(n, x), ref, b)
  {
    var r := n.stage[x].ref;
    assert Listed(n, x, r, n.stage[x].downs[r]);
    TooLateIsKept(n, Delivered(n, x), ref, b);
  }

  lemma TooLateWhenMoved(n: Net, x: Pid, move: Move, ref: Ref, b: Pid)
    requires Known(n) && TooLate(n, ref, b) && Movable(n, x, move)
    ensures TooLate(Moved(n, x, move), ref, b)
  {
    MovesForward(n, x, move);
    TooLateIsKept(n, Moved(n, x, move), ref, b);
  }

  lemma TooLateWhenCalled(n: Net, call: Call, ref: Ref, b: Pid)
    requires Known(n) && TooLate(n, ref, b) && Callable(n, call)
    ensures TooLate(Called(n, call), ref, b)
  {
    TooLateIsKept(n, Called(n, call), ref, b);
  }

  lemma TooLateWhenTold(n: Net, x: Pid, r: Ref, ref: Ref, b: Pid)
    requires Known(n) && TooLate(n, ref, b) && Enabled(n, TellMonitor(x, r))
    ensures TooLate(Told(n, x, r), ref, b)
  {
    TooLateIsKept(n, Told(n, x, r), ref, b);
  }

  lemma StillTooLate(n: Net, step: Step, ref: Ref, b: Pid)
    requires Known(n) && ListsOk(n) && TooLate(n, ref, b)
    ensures TooLate(Next(n, step), ref, b)
  {
    if Enabled(n, step) {
      match step
      case Spawn(p) => TooLateIsKept(n, Born(n, p), ref, b);
      case Makes(call) => TooLateWhenCalled(n, call, ref, b);
      case HandleDown(x) => TooLateIsKept(n, Handled(n, x), ref, b);
      case TellMonitor(x, r) => TooLateWhenTold(n, x, r, ref, b);
      case DeliverDown(x) => TooLateWhenDelivered(n, x, ref, b);
      case Teardown(x, move) => TooLateWhenMoved(n, x, move, ref, b);
    }
  }

  lemma {:induction false} TooLateForGood(n: Net, steps: seq<Step>, ref: Ref, b: Pid)
    requires Known(n) && Inv(n) && TooLate(n, ref, b)
    ensures TooLate(Run(n, steps), ref, b)
    decreases |steps|
  {
    if steps != [] {
      NextOk(n, steps[0]);
      StillTooLate(n, steps[0], ref, b);
      TooLateForGood(Next(n, steps[0]), steps[1..], ref, b);
    }
  }

  lemma MonitoredTooLate(n: Net, a: Pid, b: Pid, ref: Ref)
    requires Known(n) && Inv(n) && Callable(n, Monitor(a, b, ref)) && Ended(n.stage[b]) && !n.stage[b].Stopped?
    ensures var n' := Monitored(n, a, b, ref);
            Inv(n') && TooLate(n', ref, b) && Watches(n'.world, a, ref, b)
  {
    NotIssuedYet(n, a, b, ref);
    MonitoredOk(n, a, b, ref);
  }

  /** A monitor entered after its target listed its monitors and before it stopped is in
      force at first, and yields no Down whatever happens. */
  lemma LateMonitorsAreNotTold(steps: seq<Step>, n1: Net, a: Pid, b: Pid, ref: Ref, more: seq<Step>)
    requires n1 == Run(EMPTY, steps) && Callable(n1, Monitor(a, b, ref))
    requires Ended(n1.stage[b]) && !n1.stage[b].Stopped?
    ensures Watches(Monitored(n1, a, b, ref).world, a, ref, b)
    ensures Run(Monitored(n1, a, b, ref), more).sent[ref] == 0
  {
    RunOk(EMPTY, steps);
    MonitoredTooLate(n1, a, b, ref);
    TooLateForGood(Monitored(n1, a, b, ref), more, ref, b);
  }

  /** A Down was sent only about a process that had left its loop. */
  ghost predicate OnlyEnded(n: Net) {
    forall ref :: 1 <= n.sent[ref] ==>
      ref in n.issued && n.issued[ref].1 in n.stage && Ended(n.stage[n.issued[ref].1])
  }

  /** Who has left its loop stays out of it, and no Down is sent anew. */
  lemma OnlyEndedIsKept(n: Net, n': Net)
    requires OnlyEnded(n) && n'.sent == n.sent && n.stage.Keys <= n'.stage.Keys
    requires forall ref :: ref in n.issued ==> ref in n'.issued && n'.issued[ref] == n.issued[ref]
    requires forall p :: p in n.stage && Ended(n.stage[p]) ==> Ended(n'.stage[p])
    ensures OnlyEnded(n')
  {
  }

  lemma OnlyEndedWhenSent(n: Net, a: Pid, ref: Ref)
    requires Known(n) && OnlyEnded(n) && a in n.stage && ref in n.issued
    requires n.issued[ref].1 in n.stage && Ended(n.stage[n.issued[ref].1])
    ensures OnlyEnded(Sent(n, a, ref))
  {
    var n' := Sent(n, a, ref);
    forall r | 1 <= n'.sent[r] ensures r == ref || 1 <= n.sent[r] {
    }
  }

  lemma OnlyEndedWhenBorn(n: Net, p: Pid)
    requires Known(n) && OnlyEnded(n) && p !in n.stage
    ensures OnlyEnded(Born(n, p))
  {
    OnlyEndedIsKept(n, Born(n, p));
  }

  lemma OnlyEndedWhenHandled(n: Net, a: Pid)
    requires Known(n) && OnlyEnded(n) && Enabled(n, HandleDown(a))
    ensures OnlyEnded(Handled(n, a))
  {
    OnlyEndedIsKept(n, Handled(n, a));
  }

  lemma OnlyEndedWhenTold(n: Net, x: Pid, ref: Ref)
    requires Known(n) && OnlyEnded(n) && Enabled(n, TellMonitor(x, ref))
    ensures OnlyEnded(Told(n, x, ref))
  {
    OnlyEndedIsKept(n, Told(n, x, ref));
  }

  lemma OnlyEndedWhenDelivered(n: Net, x: Pid)
    requires Known(n) && ListsOk(n) && OnlyEnded(n) && Enabled(n, DeliverDown(x))
    ensures OnlyEnded(Delivered(n, x))
  {
    var ref := n.stage[x].ref;
    var a := n.stage[x].downs[ref];
    assert Listed(n, x, ref, a);
    var done := n.(stage := n.stage[x := Telling(n.stage[x].downs - {ref})]);
    OnlyEndedIsKept(n, done);
    OnlyEndedWhenSent(done, a, ref);
  }

  lemma OnlyEndedWhenMonitored(n: Net, a: Pid, b: Pid, ref: Ref)
    requires Known(n) && OnlyEnded(n) && Callable(n, Monitor(a, b, ref))
    ensures OnlyEnded(Monitored(n, a, b, ref))
  {
    var issued := n.(issued := n.issued[ref := (a, b)]);
    OnlyEndedIsKept(n, issued);
    if n.stage[b].Stopped? {
      OnlyEndedWhenSent(issued, a, ref);
    } else {
      OnlyEndedIsKept(issued, Monitored(n, a, b, ref));
    }
  }

  lemma OnlyEndedWhenMoved(n: Net, a: Pid, move: Move)
    requires Known(n) && OnlyEnded(n) && Movable(n, a, move)
    ensures OnlyEnded(Moved(n, a, move))
  {
    MovesForward(n, a, move);
    OnlyEndedIsKept(n, Moved(n, a, move));
  }

  lemma OnlyEndedWhenCalled(n: Net, call: Call)
    requires Known(n) && OnlyEnded(n) && Callable(n, call)
    ensures OnlyEnded(Called(n, call))
  {
    if call.Monitor? {
      OnlyEndedWhenMonitored(n, call.a, call.b, call.ref);
    } else {
      OnlyEndedIsKept(n, Called(n, call));
    }
  }

  lemma NextOnlyEnded(n: Net, step: Step)
    requires Known(n) && ListsOk(n) && OnlyEnded(n)
    ensures OnlyEnded(Next(n, step))
  {
    if Enabled(n, step) {
      match step
      case Spawn(p) => OnlyEndedWhenBorn(n, p);
      case Makes(call) => OnlyEndedWhenCalled(n, call);
      case HandleDown(a) => OnlyEndedWhenHandled(n, a);
      case TellMonitor(a, ref) => OnlyEndedWhenTold(n, a, ref);
      case DeliverDown(a) => OnlyEndedWhenDelivered(n, a);
      case Teardown(a, move) => OnlyEndedWhenMoved(n, a, move);
    }
  }

  lemma {:induction false} NoDownTooSoon(n: Net, steps: seq<Step>)
    requires Known(n) && Inv(n) && OnlyEnded(n)
    ensures OnlyEnded(Run(n, steps))
    decreases |steps|
  {
    if steps != [] {
      NextOnlyEnded(n, steps[0]);
      NextOk(n, steps[0]);
      NoDownTooSoon(Next(n, steps[0]), steps[1..]);
    }
  }

  /** In every run a Down is sent only about a process that has left its loop. */
  lemma DownsAreTrue(steps: seq<Step>)
    ensures OnlyEnded(Run(EMPTY, steps))
  {
    NoDownTooSoon(EMPTY, steps);
  }
}
