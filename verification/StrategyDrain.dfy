/** Whole runs of group restart: children stopped on purpose never count as failures, and
    rounds drain the stopped children. */
module StrategyDrain {
  import opened Seqs
  import opened Sets

  import opened Strategies
  import opened StrategyRounds
  import opened StrategyRuns

  // ---------------------------------------------------------------------
  // Only real failures count
  // ---------------------------------------------------------------------

  /** A child ends by itself, or the loop deals with a child whose event is set. */
  datatype Event = Dies(id: Id, crashed: bool) | Handles(id: Id)

  function Next(g: Group, strategy: Strategy, e: Event): Group {
    match e
    case Dies(id, crashed) => if Alive(g, id) then g.(stopped := g.stopped[g.children[id].process := crashed]) else g
    case Handles(id) => if id in StoppedIds(g) then Round(g, strategy, id) else g
  }

  function Run(g: Group, strategy: Strategy, events: seq<Event>): Group
    decreases |events|
  {
    if events == [] then g else Run(Next(g, strategy, events[0]), strategy, events[1..])
  }

  /** `init` and the first start: duplicate ids were refused. */
  function Started(specs: seq<ChildSpec>): Group {
    StartAll(Group(specs, {}, false, map[], {}, map[], 0, [], []), specs)
  }

  /** The process of a child was neither told to stop nor counted yet. */
  ghost predicate Unspent(g: Group, id: Id)
    requires id in g.children
  {
    g.children[id].process !in g.shutdowns && g.children[id].process !in g.counted
  }

  ghost predicate Honest(g: Group) {
    && (forall id {:trigger Unspent(g, id)} :: id in g.children ==> Unspent(g, id))
    && (forall p :: p in g.counted ==> p in g.stopped && p !in g.shutdowns)
    && (forall p :: p in g.shutdowns ==> p in g.stopped)
    && Distinct(g.counted)
  }

  /** One more failure counted, children told to stop, some replaced by new ones. */
  lemma StillHonest(g: Group, g': Group, told: seq<Instance>, counted: seq<Instance>)
    requires Sound(g) && Honest(g)
    requires g'.shutdowns == g.shutdowns + told && g'.counted == g.counted + counted && |counted| <= 1
    requires forall p :: p in g'.stopped <==> p in g.stopped || p in told
    requires forall p :: p in told ==> p !in g.stopped
    requires forall p :: p in counted ==> p in g.stopped && p !in g.counted && p !in g.shutdowns
    requires forall id :: id in g'.children ==>
               g.spawned <= g'.children[id].process
               || (id in g.children && g'.children[id] == g.children[id] && g.children[id].process !in told
                 && g.children[id].process !in counted)
    requires forall p :: p in told ==> p < g.spawned
    ensures Honest(g')
  {
    forall id | id in g'.children ensures Unspent(g', id) {
      if id in g.children { assert Unspent(g, id); }
    }
    forall i, j | 0 <= i < j < |g'.counted| ensures g'.counted[i] != g'.counted[j] {
      if j == |g.counted| {
        assert g'.counted[j] in counted && g'.counted[i] in g.counted;
      }
    }
  }

  /** `i` is where the new processes begin, `from` where the told ones do. */
  lemma ReplacedIsHonest(g: Group, g': Group, id: Id, i: nat, from: nat)
    requires Sound(g) && Honest(g) && id in g.children && id in StoppedIds(g) && i <= from <= |Running(g)|
    requires Restarted(g, g', i) && (forall j :: 0 <= j < i ==> Running(g)[j] != id)
    requires g'.shutdowns == g.shutdowns + LivingBackwards(g, Running(g)[from..])
    requires g'.counted == g.counted + [g.children[id].process]
    requires forall p :: p in g'.stopped <==> p in g.stopped || p in LivingBackwards(g, Running(g)[from..])
    ensures Honest(g')
  {
    var told := LivingBackwards(g, Running(g)[from..]);
    RunningIsEvents(g);
    LivingAreChildren(g, Running(g)[from..]);
    assert Unspent(g, id);
    forall x | x in g'.children
      ensures g.spawned <= g'.children[x].process
              || (x in g.children && g'.children[x] == g.children[x] && g.children[x].process !in told && x != id)
    {
      var j := PositionOf(g, x);
      if j < i {
        assert KeptAt(g, g', j);
        NotTold(g, from, j);
      } else {
        assert FreshAt(g, g', i, j);
      }
    }
    StillHonest(g, g', told, [g.children[id].process]);
  }

  lemma RestForOneIsHonest(g: Group, id: Id)
    requires Sound(g) && Honest(g) && id in StoppedIds(g) && Decide(g, RestForOne, id) == Restarting
    ensures Honest(Round(g, RestForOne, id))
  {
    RestForOneRestarts(g, id);
    var i, g' := IndexOf(Running(g), id), Round(g, RestForOne, id);
    forall j | 0 <= j < i ensures Running(g)[j] != id {
      FirstPlace(Running(g), id, j);
    }
    ReplacedIsHonest(g, g', id, i, i + 1);
  }

  lemma OneForAllIsHonest(g: Group, id: Id)
    requires Sound(g) && Honest(g) && id in StoppedIds(g) && Decide(g, OneForAll, id) == Restarting
    ensures Honest(Round(g, OneForAll, id))
  {
    OneForAllRestarts(g, id);
    assert Running(g)[0..] == Running(g);
    ReplacedIsHonest(g, Round(g, OneForAll, id), id, 0, 0);
  }

  lemma NotTold(g: Group, i: nat, j: nat)
    requires Sound(g) && j < i <= |Running(g)|
    ensures Running(g)[j] in g.children && g.children[Running(g)[j]].process !in LivingBackwards(g, Running(g)[i..])
  {
    RunningIsEvents(g);
    KeptInFront(g, i, j);
  }

  lemma DropIsHonest(g: Group, strategy: Strategy, id: Id)
    requires Sound(g) && Honest(g) && id in StoppedIds(g) && Decide(g, strategy, id) == Dropping
    ensures Honest(Round(g, strategy, id))
  {
    if strategy.OneForAll? {
      OneForAllDrops(g, id);
      LivingAreChildren(g, Running(g));
      StillHonest(g, Round(g, strategy, id), LivingBackwards(g, Running(g)), []);
    } else {
      RestForOneDrops(g, id);
      FewerChildren(g, Round(g, strategy, id));
    }
  }

  lemma FewerChildren(g: Group, g': Group)
    requires Honest(g) && g'.stopped == g.stopped && g'.shutdowns == g.shutdowns && g'.counted == g.counted
    requires forall id :: id in g'.children ==> id in g.children && g'.children[id] == g.children[id]
    ensures Honest(g')
  {
    forall id | id in g'.children ensures Unspent(g', id) {
      assert Unspent(g, id);
    }
  }

  lemma NextIsHonest(g: Group, strategy: Strategy, e: Event)
    requires Sound(g) && Honest(g) && !g.terminating
    ensures var g' := Next(g, strategy, e); Sound(g') && Honest(g') && !g'.terminating
  {
    match e
    case Dies(id, crashed) =>
      var g' := Next(g, strategy, e);
      forall x | x in g'.children ensures Unspent(g', x) {
        assert Unspent(g, x);
      }
    case Handles(id) =>
      if id in StoppedIds(g) {
        RoundShrinks(g, strategy, id);
        StoppedHasPosition(g, id);
        if Decide(g, strategy, id) == Dropping {
          DropIsHonest(g, strategy, id);
        } else if strategy.OneForAll? {
          OneForAllIsHonest(g, id);
        } else {
          RestForOneIsHonest(g, id);
        }
      }
  }

  lemma {:induction false} RunIsHonest(g: Group, strategy: Strategy, events: seq<Event>)
    requires Sound(g) && Honest(g) && !g.terminating
    ensures var g' := Run(g, strategy, events); Sound(g') && Honest(g') && !g'.terminating
    decreases |events|
  {
    if events != [] {
      NextIsHonest(g, strategy, events[0]);
      RunIsHonest(Next(g, strategy, events[0]), strategy, events[1..]);
    }
  }

  lemma StartedIsSound(specs: seq<ChildSpec>)
    requires UniqueIds(specs)
    ensures Sound(Started(specs)) && Honest(Started(specs)) && !Started(specs).terminating
  {
    var g := Started(specs);
    StartAllStarts(Group(specs, {}, false, map[], {}, map[], 0, [], []), specs);
    forall id | id in g.children
      ensures exists i :: 0 <= i < |specs| && specs[i].id == id && g.children[id] == RunningChild(i, specs[i])
    {
      ElementsOfIds(specs, id);
      var i :| 0 <= i < |specs| && specs[i].id == id;
      assert StartedAt(g.children, specs, 0, i);
    }
  }

  /** In every run from the start, under either strategy: an end counted as a failure was a
      child's own, was counted once, and was not one the supervisor asked for. No child on the
      books was told to stop, so how such a one ended is never asked. */
  lemma OnlyRealFailuresCount(specs: seq<ChildSpec>, strategy: Strategy, events: seq<Event>)
    requires UniqueIds(specs)
    ensures var g := Run(Started(specs), strategy, events);
            && (forall p :: p in g.counted ==> p in g.stopped && p !in g.shutdowns)
            && Distinct(g.counted)
            && (forall id :: id in g.children ==> g.children[id].process !in g.shutdowns)
  {
    StartedIsSound(specs);
    RunIsHonest(Started(specs), strategy, events);
    var g := Run(Started(specs), strategy, events);
    forall id | id in g.children ensures g.children[id].process !in g.shutdowns {
      assert Unspent(g, id);
    }
  }

  // ---------------------------------------------------------------------
  // A sibling left stopped
  // ---------------------------------------------------------------------

  /** Under `one_for_all`, a temporary child `a` ends while its permanent sibling `b` runs:
      `b` is told to stop, nothing is started, and no child runs any more, though the spec
      of `b` is still there. */
  lemma SiblingIsLeftStopped(a: Id, b: Id, crashed: bool)
    requires a != b
    ensures var specs := [ChildSpec(a, Temporary), ChildSpec(b, Permanent)];
            var g := Run(Started(specs), OneForAll, [Dies(a, crashed), Handles(a)]);
            && b in Started(specs).children
            && g.shutdowns == [Started(specs).children[b].process]
            && g.children == map[] && g.events == {}
            && g.specs == [ChildSpec(b, Permanent)]
  {
    var specs := [ChildSpec(a, Temporary), ChildSpec(b, Permanent)];
    StartedTwo(specs[0], specs[1]);
    var g := Next(Started(specs), OneForAll, Dies(a, crashed));
    SiblingIsToldToStop(specs[0], specs[1], crashed, g);
    assert [Dies(a, crashed), Handles(a)][1..] == [Handles(a)];
    assert Run(g, OneForAll, [Handles(a)]) == Run(Next(g, OneForAll, Handles(a)), OneForAll, []);
  }

  lemma SiblingIsToldToStop(s: ChildSpec, t: ChildSpec, crashed: bool, g: Group)
    requires s.id != t.id && s.restart.Temporary?
    requires g == Group([s, t], {}, false, map[s.id := RunningChild(0, s), t.id := RunningChild(1, t)],
                        {s.id, t.id}, map[0 := crashed], 2, [], [])
    ensures var g' := Next(g, OneForAll, Handles(s.id));
            g'.shutdowns == [1] && g'.children == map[] && g'.events == {} && g'.specs == [t]
  {
    SpecsOfTwo(s, t);
    assert Running(g) == [s.id, t.id];
    assert Next(g, OneForAll, Handles(s.id)) == Round(g, OneForAll, s.id);
    assert Except(g.specs, s.id) == [t] by { ExceptFirst(s, t); }
    assert LivingBackwards(g, Running(g)) == [1] by { LivingTwo(g, s.id, t.id); }
    OneForAllDrops(g, s.id);
  }

  lemma LivingTwo(g: Group, a: Id, b: Id)
    requires !Alive(g, a) && Alive(g, b)
    ensures LivingBackwards(g, [a, b]) == [g.children[b].process]
  {
    assert [a, b][..1] == [a] && [a][..0] == [];
    assert LivingBackwards(g, [a]) == [];
  }

  lemma ExceptFirst(s: ChildSpec, t: ChildSpec)
    requires s.id != t.id
    ensures Except([s, t], s.id) == [t]
  {
    assert [s, t][1..] == [t];
    assert Except([t], s.id) == [t] + Except([], s.id);
  }

  lemma StartedTwo(s: ChildSpec, t: ChildSpec)
    requires s.id != t.id
    ensures Started([s, t]) == Group([s, t], {}, false, map[s.id := RunningChild(0, s), t.id := RunningChild(1, t)],
                                     {s.id, t.id}, map[], 2, [], [])
  {
    assert [s, t][1..] == [t];
    var g := Group([s, t], {}, false, map[], {}, map[], 0, [], []);
    assert StartAll(Start(g, s), [t]) == StartAll(Start(Start(g, s), t), []);
  }

  lemma SpecsOfTwo(s: ChildSpec, t: ChildSpec)
    ensures SpecsOf([s, t], {s.id, t.id}) == [s, t]
  {
    assert [s, t][1..] == [t];
    assert SpecsOf([t], {s.id, t.id}) == [t];
  }

  // ---------------------------------------------------------------------
  // Draining the stopped children
  // ---------------------------------------------------------------------

  /** Rounds in which nobody fails, each for a child that has stopped. */
  function Rounds(g: Group, strategy: Strategy, picks: seq<Id>): Group
    decreases |picks|
  {
    if picks == [] then g else Rounds(Round(g, strategy, picks[0]), strategy, picks[1..])
  }

  ghost predicate Genuine(g: Group, strategy: Strategy, picks: seq<Id>)
    decreases |picks|
  {
    picks == [] || (picks[0] in StoppedIds(g) && Genuine(Round(g, strategy, picks[0]), strategy, picks[1..]))
  }

  /** Whatever stopped child each round picks, there are no more rounds than stopped
      children; then, with none left, everyone who runs is alive. */
  lemma {:induction false} RoundsEnd(g: Group, strategy: Strategy, picks: seq<Id>)
    requires Sound(g) && !g.terminating && Genuine(g, strategy, picks)
    ensures |picks| <= |StoppedIds(g)|
    ensures var g' := Rounds(g, strategy, picks);
            Sound(g') && (StoppedIds(g') == {} ==> forall id :: id in g'.events ==> Alive(g', id))
    decreases |picks|
  {
    if picks == [] {
      forall id | id in g.events && StoppedIds(g) == {} ensures Alive(g, id) {
        assert id !in StoppedIds(g);
      }
    } else {
      var g1 := Round(g, strategy, picks[0]);
      RoundShrinks(g, strategy, picks[0]);
      RoundsEnd(g1, strategy, picks[1..]);
      SmallerSet(StoppedIds(g1), StoppedIds(g), picks[0]);
    }
  }

  lemma SmallerSet(a: set<Id>, b: set<Id>, x: Id)
    requires a <= b - {x} && x in b
    ensures |a| < |b|
  {
    var rest := b - {x};
    assert |rest| == |b| - 1;
    SubsetSize(a, rest);
  }

  /** Every stopped child is one to restart. */
  ghost predicate AllToRestart(g: Group) {
    forall id :: id in StoppedIds(g) ==> Decide(g, RestForOne, id) == Restarting
  }

  /** Under `rest_for_one` with everyone to restart: positions before `first` hold the
      processes of `g`; if `done`, those from `first` on hold newer ones, else the child at
      `first` still waits. */
  ghost predicate PartWay(g: Group, now: Group, first: nat, done: bool) {
    && Sound(now) && !now.terminating && Running(now) == Running(g) && now.specs == g.specs && now.events == g.events
    && g.spawned <= now.spawned && first < |Running(g)|
    && (forall j {:trigger KeptAt(g, now, j)} :: 0 <= j < first ==> KeptAt(g, now, j) && Alive(g, Running(g)[j]))
    && (if done then forall j {:trigger NewAt(g, now, j)} :: first <= j < |Running(g)| ==> NewAt(g, now, j)
        else Running(g)[first] in StoppedIds(now))
  }

  ghost predicate NewAt(g: Group, now: Group, j: nat)
    requires j < |Running(g)|
  {
    Running(g)[j] in now.children && g.spawned <= now.children[Running(g)[j]].process
  }

  lemma NextPartWay(g: Group, now: Group, first: nat, done: bool, pick: Id)
    requires PartWay(g, now, first, done) && pick in StoppedIds(now) && Decide(now, RestForOne, pick) == Restarting
    ensures PartWay(g, Round(now, RestForOne, pick), first, done || pick == Running(g)[first])
  {
    RestForOneRestarts(now, pick);
    PartWayOn(g, now, Round(now, RestForOne, pick), first, done, pick);
  }

  lemma PartWayOn(g: Group, now: Group, next: Group, first: nat, done: bool, pick: Id)
    requires PartWay(g, now, first, done) && pick in StoppedIds(now) && pick in Running(now)
    requires RestRestarted(now, next, pick, IndexOf(Running(now), pick))
    ensures PartWay(g, next, first, done || pick == Running(g)[first])
  {
    var i := IndexOf(Running(now), pick);
    PickIsLater(g, now, first, done, pick);
    forall j | 0 <= j < first ensures KeptAt(g, next, j) && Alive(g, Running(g)[j]) {
      assert KeptAt(g, now, j) && KeptAt(now, next, j);
    }
    forall j | first <= j < |Running(g)| && (done || pick == Running(g)[first]) ensures NewAt(g, next, j) {
      NewAtNext(g, now, next, first, done, pick, j);
    }
    if !(done || pick == Running(g)[first]) {
      assert first != i && KeptAt(now, next, first);
    }
  }

  lemma FirstPlace(ids: seq<Id>, pick: Id, first: nat)
    requires pick in ids && first < IndexOf(ids, pick)
    ensures ids[first] != pick
  {
    assert ids[..IndexOf(ids, pick)][first] == ids[first];
  }

  lemma NewAtNext(g: Group, now: Group, next: Group, first: nat, done: bool, pick: Id, j: nat)
    requires PartWay(g, now, first, done) && pick in Running(now) && first <= j < |Running(g)|
    requires RestRestarted(now, next, pick, IndexOf(Running(now), pick)) && (done || pick == Running(g)[first])
    ensures NewAt(g, next, j)
  {
    var i := IndexOf(Running(now), pick);
    if i <= j {
      assert FreshAt(now, next, i, j);
    } else {
      FirstPlace(Running(g), pick, first);
      assert KeptAt(now, next, j) && NewAt(g, now, j);
    }
  }

  /** The children in front live, so the one picked is not among them. */
  lemma PickIsLater(g: Group, now: Group, first: nat, done: bool, pick: Id)
    requires PartWay(g, now, first, done) && pick in StoppedIds(now) && pick in Running(now)
    ensures first <= IndexOf(Running(now), pick)
  {
    forall j | 0 <= j < first ensures Running(g)[j] != pick {
      assert KeptAt(g, now, j);
    }
  }

  lemma StillToRestart(g: Group, pick: Id)
    requires Sound(g) && !g.terminating && pick in StoppedIds(g) && AllToRestart(g)
    ensures AllToRestart(Round(g, RestForOne, pick))
  {
    var g' := Round(g, RestForOne, pick);
    RestForOneRestarts(g, pick);
    RoundShrinks(g, RestForOne, pick);
    RunningIsEvents(g);
    forall id | id in StoppedIds(g') ensures Decide(g', RestForOne, id) == Restarting {
      var j := PositionOf(g, id);
      var i := IndexOf(Running(g), pick);
      assert i <= j ==> FreshAt(g, g', i, j);
      assert KeptAt(g, g', j);
      assert Decide(g, RestForOne, id) == Restarting;
    }
  }

  lemma {:induction false} RoundsPartWay(g: Group, now: Group, first: nat, done: bool, picks: seq<Id>)
    requires PartWay(g, now, first, done) && AllToRestart(now) && Genuine(now, RestForOne, picks)
    requires StoppedIds(Rounds(now, RestForOne, picks)) == {}
    ensures PartWay(g, Rounds(now, RestForOne, picks), first, true)
    decreases |picks|
  {
    if picks != [] {
      var pick := picks[0];
      assert Decide(now, RestForOne, pick) == Restarting;
      NextPartWay(g, now, first, done, pick);
      StillToRestart(now, pick);
      RoundsPartWay(g, Round(now, RestForOne, pick), first, done || pick == Running(g)[first], picks[1..]);
    }
  }

  /** `rest_for_one` with several failures at once: in whatever order the loop picks them,
      once nobody is left stopped, the children before the first failed one are the same
      living processes and all from it on are new living ones, in spec order as before. */
  lemma RestForOneDrains(g: Group, first: nat, picks: seq<Id>)
    requires Sound(g) && !g.terminating && AllToRestart(g)
    requires first < |Running(g)| && Running(g)[first] in StoppedIds(g)
    requires forall j :: 0 <= j < first ==> Alive(g, Running(g)[j])
    requires Genuine(g, RestForOne, picks) && StoppedIds(Rounds(g, RestForOne, picks)) == {}
    ensures var g' := Rounds(g, RestForOne, picks);
            && Running(g') == Running(g)
            && (forall j :: 0 <= j < first ==> KeptAt(g, g', j))
            && (forall j :: first <= j < |Running(g)| ==> NewAt(g, g', j))
            && (forall id :: id in g'.events ==> Alive(g', id))
  {
    RunningIsEvents(g);
    RoundsPartWay(g, g, first, false, picks);
    RoundsEnd(g, RestForOne, picks);
  }
}
