/** Rounds of group restart: what each kind of round leaves, and whole runs of them. */
module StrategyRounds {
  import opened Seqs

  import opened Strategies
  import opened StrategyRuns

  /** The children whose stop the loop has yet to deal with. */
  function StoppedIds(g: Group): set<Id> {
    set id | id in g.events && !Alive(g, id)
  }

  lemma StoppedHasPosition(g: Group, id: Id)
    requires Sound(g) && id in g.events
    ensures id in Running(g) && id in g.children
  {
    RunningIsEvents(g);
    assert id in Elements(Running(g));
  }

  /** Permanent children are always restarted, temporary ones never, transient ones exactly
      when they crashed; under either strategy. */
  lemma RestartTypes(g: Group, strategy: Strategy, id: Id)
    requires Sound(g) && !g.terminating && id in StoppedIds(g)
    ensures var child := g.children[id];
            match child.spec.restart
            case Permanent => Decide(g, strategy, id) == Restarting
            case Temporary => Decide(g, strategy, id) == Dropping
            case Transient => Decide(g, strategy, id) == if g.stopped[child.process] then Restarting else Dropping
  {
    StoppedHasPosition(g, id);
    var running := SpecsOf(g.specs, g.events);
    var i := IndexOf(Running(g), id);
    SpecsOfElements(g.specs, g.events);
    assert running[i] in running && running[i].id == id;
    SameSpec(g.specs, running[i], g.children[id].spec);
  }

  /** A child that is not waited for any more is none of the loop's business. */
  lemma StrangersAreIgnored(g: Group, strategy: Strategy, id: Id)
    requires id !in Running(g)
    ensures Round(g, strategy, id) == g
  {
  }

  lemma SameSpec(specs: seq<ChildSpec>, a: ChildSpec, b: ChildSpec)
    requires UniqueIds(specs) && a in specs && b in specs && a.id == b.id
    ensures a == b
  {
    var i :| 0 <= i < |specs| && specs[i] == a;
    var j :| 0 <= j < |specs| && specs[j] == b;
  }

  lemma CountedIsSound(g: Group, id: Id)
    requires Sound(g) && id in g.children
    ensures Sound(Counted(g, id)) && Running(Counted(g, id)) == Running(g)
  {
  }

  lemma ShutDownTailIsSound(g: Group, i: nat)
    requires Sound(g) && i <= |Running(g)|
    ensures var tail := Running(g)[i..];
            var g1 := ShutDownAll(g, tail);
            && g1 == g.(stopped := g1.stopped, shutdowns := g.shutdowns + LivingBackwards(g, tail))
            && (forall p :: p in g1.stopped <==> p in g.stopped || p in LivingBackwards(g, tail))
            && SameEnds(g, g1)
            && Sound(g1) && Running(g1) == Running(g)
            && (forall j :: 0 <= j < i ==> (Alive(g1, Running(g)[j]) <==> Alive(g, Running(g)[j])))
            && (forall j :: i <= j < |Running(g)| ==> !Alive(g1, Running(g)[j]))
  {
    var tail := Running(g)[i..];
    var g1 := ShutDownAll(g, tail);
    RunningIsEvents(g);
    ShutDownAllStops(g, tail);
    LivingAreChildren(g, tail);
    forall j | 0 <= j < i ensures Alive(g1, Running(g)[j]) <==> Alive(g, Running(g)[j]) {
      KeptInFront(g, i, j);
    }
    forall j | i <= j < |Running(g)| ensures !Alive(g1, Running(g)[j]) {
      assert Running(g)[j] == tail[j - i];
    }
  }

  /** Shutting down the children after a stopped one, then restarting from it on. */
  lemma ShutDownThenRestart(g: Group, i: nat)
    requires Sound(g) && i < |Running(g)| && !Alive(g, Running(g)[i])
    ensures var later := Running(g)[i + 1..];
            var g' := RestartRest(g, Running(g), i);
            && Restarted(g, g', i) && Sound(g') && g'.counted == g.counted
            && g'.shutdowns == g.shutdowns + LivingBackwards(g, later)
            && (forall p :: p in g'.stopped <==> p in g.stopped || p in LivingBackwards(g, later))
            && SameEnds(g, g')
  {
    var ids := Running(g);
    var g1 := ShutDownAll(g, ids[i + 1..]);
    ShutDownTailIsSound(g, i + 1);
    RestartStopped(g1, i);
    SameRestart(g, g1, RestartChildren(g1, ids[i..], true), i);
  }

  /** Restarting children none of which runs any more stops nobody. */
  lemma RestartStopped(g: Group, i: nat)
    requires Sound(g) && i <= |Running(g)| && forall j :: i <= j < |Running(g)| ==> !Alive(g, Running(g)[j])
    ensures var g' := RestartChildren(g, Running(g)[i..], true);
            && Restarted(g, g', i) && Sound(g') && g'.counted == g.counted && g'.shutdowns == g.shutdowns
            && (forall p :: p in g'.stopped <==> p in g.stopped)
            && SameEnds(g, g')
  {
    NoneLivingFrom(g, i);
    RestartTail(g, i);
  }

  lemma NoneLivingFrom(g: Group, i: nat)
    requires i <= |Running(g)| && forall j :: i <= j < |Running(g)| ==> !Alive(g, Running(g)[j])
    ensures LivingBackwards(g, Running(g)[i..]) == []
  {
    var tail := Running(g)[i..];
    forall x | x in tail ensures !Alive(g, x) {
      var k :| 0 <= k < |tail| && tail[k] == x;
      assert Running(g)[i + k] == x;
    }
    NobodyLiving(g, tail);
  }

  lemma CountedIsNeutral(g: Group, id: Id, ids: seq<Id>, g': Group, i: nat)
    requires Restarted(Counted(g, id), g', i)
    ensures Restarted(g, g', i) && LivingBackwards(Counted(g, id), ids) == LivingBackwards(g, ids)
  {
    LivingElsewhere(g, Counted(g, id), ids);
    SameRestart(g, Counted(g, id), g', i);
  }

  /** Only the children from position `i` on, where `id` failed, were restarted. Only living
      later ones were told to stop, last one first; only the end of `id` was counted. */
  ghost predicate RestRestarted(g: Group, g': Group, id: Id, i: nat) {
    && Restarted(g, g', i) && Sound(g')
    && i < |Running(g)| && id in g.children
    && var told := LivingBackwards(g, Running(g)[i + 1..]);
       && g'.shutdowns == g.shutdowns + told
       && g'.counted == g.counted + [g.children[id].process]
       && (forall p :: p in g'.stopped <==> p in g.stopped || p in told)
       && SameEnds(g, g')
  }

  /** `rest_for_one`: the children before the failed one are the same processes; it and all
      after it are new ones, started in order. Only living later children are told to stop,
      last one first, and only the failed child's end counts against the intensity. */
  lemma RestForOneRestarts(g: Group, id: Id)
    requires Sound(g) && id in StoppedIds(g) && Decide(g, RestForOne, id) == Restarting
    ensures id in Running(g) && RestRestarted(g, Round(g, RestForOne, id), id, IndexOf(Running(g), id))
  {
    StoppedHasPosition(g, id);
    var i := IndexOf(Running(g), id);
    RoundIsRestart(g, id, i);
    RestCounted(g, id, i, RestartRest(Counted(g, id), Running(g), i));
  }

  lemma RoundIsRestart(g: Group, id: Id, i: nat)
    requires Decide(g, RestForOne, id) == Restarting && id in Running(g) && i == IndexOf(Running(g), id)
    ensures Round(g, RestForOne, id) == RestartRest(Counted(g, id), Running(g), i)
  {
  }

  lemma RestCounted(g: Group, id: Id, i: nat, g': Group)
    requires Sound(g) && id in g.children && i < |Running(g)| && Running(g)[i] == id && !Alive(g, id)
    requires g' == RestartRest(Counted(g, id), Running(g), i)
    ensures RestRestarted(g, g', id, i)
  {
    CountedIsSound(g, id);
    ShutDownThenRestart(Counted(g, id), i);
    CountedIsNeutral(g, id, Running(g)[i + 1..], g', i);
  }

  /** A restart from a state with the same children, alive or not, in front. */
  lemma SameRestart(g: Group, g1: Group, g': Group, i: nat)
    requires Restarted(g1, g', i)
    requires g1 == g.(stopped := g1.stopped, shutdowns := g1.shutdowns, counted := g1.counted)
    requires forall j :: 0 <= j < i ==> (Alive(g1, Running(g)[j]) <==> Alive(g, Running(g)[j]))
    ensures Restarted(g, g', i)
  {
    forall j | 0 <= j < i ensures KeptAt(g, g', j) {
      assert KeptAt(g1, g', j);
    }
    forall j | i <= j < |Running(g)| ensures FreshAt(g, g', i, j) {
      assert FreshAt(g1, g', i, j);
    }
  }

  /** `one_for_all`: every running child is a new process. */
  lemma OneForAllRestarts(g: Group, id: Id)
    requires Sound(g) && id in StoppedIds(g) && Decide(g, OneForAll, id) == Restarting
    ensures var g' := Round(g, OneForAll, id);
            && id in g.children
            && Restarted(g, g', 0) && Sound(g')
            && g'.shutdowns == g.shutdowns + LivingBackwards(g, Running(g))
            && g'.counted == g.counted + [g.children[id].process]
            && (forall p :: p in g'.stopped <==> p in g.stopped || p in LivingBackwards(g, Running(g)))
  {
    StoppedHasPosition(g, id);
    var ids := Running(g);
    var g0 := Counted(g, id);
    CountedIsSound(g, id);
    assert ids[0..] == ids;
    RestartTail(g0, 0);
    CountedIsNeutral(g, id, ids, Round(g, OneForAll, id), 0);
  }

  lemma {:induction false} ExceptElements(specs: seq<ChildSpec>, id: Id)
    requires UniqueIds(specs)
    ensures forall s :: s in Except(specs, id) <==> s in specs && s.id != id
    ensures UniqueIds(Except(specs, id))
  {
    if specs != [] {
      UniqueTail(specs);
      ExceptElements(specs[1..], id);
      assert forall s :: s in specs <==> s == specs[0] || s in specs[1..];
    }
  }

  /** `rest_for_one`, a child not to be restarted: it and its spec go, the others stay. */
  lemma RestForOneDrops(g: Group, id: Id)
    requires Sound(g) && id in StoppedIds(g) && Decide(g, RestForOne, id) == Dropping
    ensures var g' := Round(g, RestForOne, id);
            && Sound(g')
            && g' == g.(specs := Except(g.specs, id), exited := g.exited + {id}, children := g.children - {id},
                        events := g.events - {id})
            && (forall x :: x in g'.children ==> g'.children[x] == g.children[x] && (Alive(g', x) <==> Alive(g, x)))
  {
    StoppedHasPosition(g, id);
    ExceptElements(g.specs, id);
  }

  /** `one_for_all`, a child not to be restarted: its spec goes, and its siblings are shut
      down without being started again; their specs stay. */
  lemma OneForAllDrops(g: Group, id: Id)
    requires Sound(g) && id in StoppedIds(g) && Decide(g, OneForAll, id) == Dropping
    ensures var g' := Round(g, OneForAll, id);
            && Sound(g')
            && g'.children == map[] && g'.events == {}
            && g'.specs == Except(g.specs, id) && g'.exited == g.exited + {id} && g'.terminating == g.terminating
            && g'.spawned == g.spawned && g'.counted == g.counted
            && g'.shutdowns == g.shutdowns + LivingBackwards(g, Running(g))
            && (forall p :: p in g'.stopped <==> p in g.stopped || p in LivingBackwards(g, Running(g)))
  {
    StoppedHasPosition(g, id);
    var ids := Running(g);
    RunningIsEvents(g);
    ExceptElements(g.specs, id);
    var g0 := DropSpec(g, id);
    ShutDownAllStops(g0, ids);
    LivingElsewhere(g, g0, ids);
    LivingAreChildren(g, ids);
  }

  /** After a restart from position `i` on, only children in front of it can be stopped. */
  lemma RestartShrinks(g: Group, g': Group, i: nat, id: Id)
    requires Sound(g) && Restarted(g, g', i) && i <= IndexIn(g, id)
    ensures StoppedIds(g') <= StoppedIds(g) - {id}
  {
    RunningIsEvents(g);
    forall x | x in StoppedIds(g') ensures x in StoppedIds(g) - {id} {
      var j := PositionOf(g, x);
      assert j < i ==> KeptAt(g, g', j);
      assert i <= j ==> FreshAt(g, g', i, j);
      if x == id { IndexIsFirst(Running(g), id, j); }
    }
  }

  function IndexIn(g: Group, id: Id): nat {
    if id in Running(g) then IndexOf(Running(g), id) else |Running(g)|
  }

  lemma IndexIsFirst(ids: seq<Id>, id: Id, j: nat)
    requires j < |ids| && ids[j] == id
    ensures IndexOf(ids, id) <= j
  {
    var i := IndexOf(ids, id);
    assert forall k :: 0 <= k < i ==> ids[..i][k] == ids[k];
  }

  /** Each round leaves strictly fewer stopped children, if no child fails meanwhile. */
  lemma RoundShrinks(g: Group, strategy: Strategy, id: Id)
    requires Sound(g) && !g.terminating && id in StoppedIds(g)
    ensures var g' := Round(g, strategy, id);
            Sound(g') && !g'.terminating && StoppedIds(g') <= StoppedIds(g) - {id} && g.spawned <= g'.spawned
  {
    var g' := Round(g, strategy, id);
    StoppedHasPosition(g, id);
    match Decide(g, strategy, id)
    case Restarting =>
      if strategy.OneForAll? {
        OneForAllRestarts(g, id);
        RestartShrinks(g, g', 0, id);
      } else {
        RestForOneRestarts(g, id);
        RestartShrinks(g, g', IndexOf(Running(g), id), id);
      }
    case Dropping =>
      if strategy.OneForAll? { OneForAllDrops(g, id); } else { RestForOneDrops(g, id); }
  }
}
