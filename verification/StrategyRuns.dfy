/** What a round of group restart does, and that rounds drain the stopped children. */
module StrategyRuns {
  import opened Seqs

  import opened Strategies

  // ---------------------------------------------------------------------
  // Ordered specs
  // ---------------------------------------------------------------------

  ghost predicate UniqueIds(specs: seq<ChildSpec>) {
    forall i, j :: 0 <= i < j < |specs| ==> specs[i].id != specs[j].id
  }

  lemma UniqueTail(specs: seq<ChildSpec>)
    requires UniqueIds(specs) && specs != []
    ensures UniqueIds(specs[1..]) && forall s :: s in specs[1..] ==> s.id != specs[0].id
  {
    assert forall i :: 0 <= i < |specs[1..]| ==> specs[1..][i] == specs[i + 1];
  }

  lemma {:induction false} SpecsOfElements(specs: seq<ChildSpec>, ids: set<Id>)
    ensures forall s :: s in SpecsOf(specs, ids) <==> s in specs && s.id in ids
  {
    if specs != [] {
      SpecsOfElements(specs[1..], ids);
      assert forall s :: s in specs <==> s == specs[0] || s in specs[1..];
    }
  }

  lemma {:induction false} SpecsOfUnique(specs: seq<ChildSpec>, ids: set<Id>)
    requires UniqueIds(specs)
    ensures UniqueIds(SpecsOf(specs, ids))
  {
    if specs != [] {
      UniqueTail(specs);
      SpecsOfUnique(specs[1..], ids);
      SpecsOfElements(specs[1..], ids);
    }
  }

  lemma {:induction false} SpecsInOrder(specs: seq<ChildSpec>, ids: set<Id>, i: nat, j: nat) returns (a: nat, b: nat)
    requires i < j < |SpecsOf(specs, ids)|
    ensures a < b < |specs| && specs[a] == SpecsOf(specs, ids)[i] && specs[b] == SpecsOf(specs, ids)[j]
  {
    var all, rest := SpecsOf(specs, ids), SpecsOf(specs[1..], ids);
    if specs[0].id !in ids {
      a, b := SpecsInOrder(specs[1..], ids, i, j);
      a, b := a + 1, b + 1;
    } else if i > 0 {
      a, b := SpecsInOrder(specs[1..], ids, i - 1, j - 1);
      a, b := a + 1, b + 1;
    } else {
      assert all[j] == rest[j - 1];
      SpecsOfElements(specs[1..], ids);
      assert rest[j - 1] in specs[1..];
      a, b :| a == 0 && 0 < b < |specs| && specs[b] == rest[j - 1];
    }
  }

  /** The running children are listed in the order of `child_specs`. */
  lemma RunningInOrder(g: Group, i: nat, j: nat) returns (a: nat, b: nat)
    requires i < j < |Running(g)|
    ensures a < b < |g.specs| && g.specs[a].id == Running(g)[i] && g.specs[b].id == Running(g)[j]
  {
    a, b := SpecsInOrder(g.specs, g.events, i, j);
  }

  /** Dropping a spec leaves the others as they are, in order. */
  lemma {:induction false} DroppingOne(specs: seq<ChildSpec>, k: nat)
    requires UniqueIds(specs) && k < |specs|
    ensures Except(specs, specs[k].id) == specs[..k] + specs[k + 1..]
  {
    UniqueTail(specs);
    if k == 0 {
      NobodyDropped(specs[1..], specs[0].id);
    } else {
      assert specs[1..][k - 1] == specs[k];
      DroppingOne(specs[1..], k - 1);
      assert specs[..k] == [specs[0]] + specs[1..][..k - 1];
      assert specs[1..][k..] == specs[k + 1..];
    }
  }

  lemma {:induction false} NobodyDropped(specs: seq<ChildSpec>, id: Id)
    requires forall s :: s in specs ==> s.id != id
    ensures Except(specs, id) == specs
  {
    if specs != [] {
      assert specs[0] in specs;
      assert forall s :: s in specs[1..] ==> s in specs;
      NobodyDropped(specs[1..], id);
    }
  }

  lemma {:induction false} SpecsOfSame(specs: seq<ChildSpec>, a: set<Id>, b: set<Id>)
    requires forall s :: s in specs ==> (s.id in a <==> s.id in b)
    ensures SpecsOf(specs, a) == SpecsOf(specs, b)
  {
    if specs != [] {
      assert specs[0] in specs;
      assert forall s :: s in specs[1..] ==> s in specs;
      SpecsOfSame(specs[1..], a, b);
    }
  }

  /** Picking the specs of a tail of the running ids gives that tail. */
  lemma {:induction false} SpecsOfTail(specs: seq<ChildSpec>, ids: set<Id>, k: nat)
    requires UniqueIds(specs) && k <= |SpecsOf(specs, ids)|
    ensures SpecsOf(specs, Elements(Ids(SpecsOf(specs, ids)[k..]))) == SpecsOf(specs, ids)[k..]
  {
    var all := SpecsOf(specs, ids);
    var tail := Elements(Ids(all[k..]));
    if specs != [] {
      UniqueTail(specs);
      SpecsOfElements(specs[1..], ids);
      var rest := SpecsOf(specs[1..], ids);
      if specs[0].id in ids && k == 0 {
        SpecsOfTail(specs[1..], ids, 0);
        TailElements(all, 0, specs[0]);
        forall s | s in specs[1..] ensures s.id in tail <==> s.id in Elements(Ids(rest[0..])) {
          assert Ids(all[0..])[1..] == Ids(rest[0..]);
        }
        SpecsOfSame(specs[1..], tail, Elements(Ids(rest[0..])));
        assert all[0..] == all && rest[0..] == rest;
      } else {
        var k' := if specs[0].id in ids then k - 1 else k;
        assert all[k..] == rest[k'..];
        SpecsOfTail(specs[1..], ids, k');
        forall i | 0 <= i < |rest[k'..]| ensures rest[k'..][i].id != specs[0].id {
          assert rest[k'..][i] in rest;
        }
      }
    }
  }

  lemma TailElements(all: seq<ChildSpec>, k: nat, s: ChildSpec)
    requires k <= |all| && s in all[k..]
    ensures s.id in Elements(Ids(all[k..]))
  {
    var i :| 0 <= i < |all[k..]| && all[k..][i] == s;
    assert Ids(all[k..])[i] == s.id;
  }

  lemma ElementsOfIds(specs: seq<ChildSpec>, id: Id)
    ensures id in Elements(Ids(specs)) <==> exists i :: 0 <= i < |specs| && specs[i].id == id
  {
    if i :| 0 <= i < |specs| && specs[i].id == id {
      assert Ids(specs)[i] == id;
    }
  }

  // ---------------------------------------------------------------------
  // Starting and shutting down
  // ---------------------------------------------------------------------

  /** The child of the `i`-th spec is the `i`-th process from `first` on. */
  predicate StartedAt(children: map<Id, RunningChild>, specs: seq<ChildSpec>, first: Instance, i: nat)
    requires i < |specs|
  {
    specs[i].id in children && children[specs[i].id] == RunningChild(first + i, specs[i])
  }

  lemma FirstOfIds(specs: seq<ChildSpec>)
    requires UniqueIds(specs) && specs != []
    ensures Elements(Ids(specs)) == {specs[0].id} + Elements(Ids(specs[1..]))
    ensures specs[0].id !in Elements(Ids(specs[1..]))
  {
    assert Ids(specs) == [specs[0].id] + Ids(specs[1..]);
  }

  /** Children are started in order, each as a new process. */
  lemma {:induction false} StartAllStarts(g: Group, specs: seq<ChildSpec>)
    requires UniqueIds(specs)
    ensures var g' := StartAll(g, specs);
            && g' == g.(children := g'.children, events := g'.events, spawned := g.spawned + |specs|)
            && g'.events == g.events + Elements(Ids(specs))
            && g'.children.Keys == g.children.Keys + Elements(Ids(specs))
            && (forall i {:trigger StartedAt(g'.children, specs, g.spawned, i)} :: 0 <= i < |specs| ==>
                  StartedAt(g'.children, specs, g.spawned, i))
            && (forall id :: id in g.children && id !in Elements(Ids(specs)) ==> g'.children[id] == g.children[id])
    decreases |specs|
  {
    if specs != [] {
      UniqueTail(specs);
      var g1, g' := Start(g, specs[0]), StartAll(g, specs);
      StartAllStarts(g1, specs[1..]);
      FirstOfIds(specs);
      forall i | 0 <= i < |specs| ensures StartedAt(g'.children, specs, g.spawned, i) {
        if i > 0 {
          assert StartedAt(g'.children, specs[1..], g1.spawned, i - 1);
        } else {
          assert g1.children[specs[0].id] == RunningChild(g.spawned, specs[0]);
        }
      }
    }
  }

  predicate Alive(g: Group, id: Id) {
    id in g.children && g.children[id].process !in g.stopped
  }

  /** The processes of the living children among `ids`, last one first. */
  function LivingBackwards(g: Group, ids: seq<Id>): seq<Instance> {
    if ids == [] then []
    else
      var last := ids[|ids| - 1];
      if Alive(g, last) then [g.children[last].process] + LivingBackwards(g, ids[..|ids| - 1])
      else LivingBackwards(g, ids[..|ids| - 1])
  }

  ghost predicate OneProcessEach(g: Group) {
    forall a, b :: a in g.children && b in g.children && g.children[a].process == g.children[b].process ==> a == b
  }

  lemma {:induction false} LivingElsewhere(g: Group, g1: Group, ids: seq<Id>)
    requires g1.children == g.children && forall id :: id in ids ==> (Alive(g1, id) <==> Alive(g, id))
    ensures LivingBackwards(g1, ids) == LivingBackwards(g, ids)
  {
    if ids != [] {
      var front := ids[..|ids| - 1];
      assert forall id :: id in front ==> id in ids;
      LivingElsewhere(g, g1, front);
    }
  }

  /** How a process ended is not rewritten. */
  ghost predicate SameEnds(g: Group, g': Group) {
    forall p :: p in g.stopped ==> p in g'.stopped && g'.stopped[p] == g.stopped[p]
  }

  /** Living children are told to stop, last one first; nothing else changes. */
  lemma {:induction false} ShutDownAllStops(g: Group, ids: seq<Id>)
    requires OneProcessEach(g) && Distinct(ids)
    ensures var g' := ShutDownAll(g, ids);
            && g' == g.(stopped := g'.stopped, shutdowns := g.shutdowns + LivingBackwards(g, ids))
            && (forall p :: p in g'.stopped <==> p in g.stopped || p in LivingBackwards(g, ids))
            && SameEnds(g, g')
            && (forall id :: id in ids ==> !Alive(g', id))
    decreases |ids|
  {
    if ids == [] {
      assert g.shutdowns + [] == g.shutdowns;
    } else {
      var last, front := ids[|ids| - 1], ids[..|ids| - 1];
      var g1 := ShutDown(g, last);
      forall id | id in front ensures Alive(g1, id) <==> Alive(g, id) {
        assert id != last;
      }
      LivingElsewhere(g, g1, front);
      ShutDownAllStops(g1, front);
      if Alive(g, last) {
        assert g.shutdowns + [g.children[last].process] + LivingBackwards(g, front)
            == g.shutdowns + ([g.children[last].process] + LivingBackwards(g, front));
      }
      forall id | id in ids ensures !Alive(ShutDownAll(g, ids), id) {
        assert id in front || id == last;
      }
    }
  }

  lemma {:induction false} NobodyLiving(g: Group, ids: seq<Id>)
    requires forall id :: id in ids ==> !Alive(g, id)
    ensures LivingBackwards(g, ids) == []
  {
    if ids != [] {
      var front := ids[..|ids| - 1];
      assert forall id :: id in front ==> id in ids;
      NobodyLiving(g, front);
    }
  }

  lemma {:induction false} LivingAreChildren(g: Group, ids: seq<Id>)
    ensures forall p :: p in LivingBackwards(g, ids) ==>
              exists id :: id in ids && Alive(g, id) && g.children[id].process == p
  {
    if ids != [] {
      var front, last := ids[..|ids| - 1], ids[|ids| - 1];
      LivingAreChildren(g, front);
      forall p | p in LivingBackwards(g, ids)
        ensures exists id :: id in ids && Alive(g, id) && g.children[id].process == p
      {
        if p in LivingBackwards(g, front) {
          var id :| id in front && Alive(g, id) && g.children[id].process == p;
          assert id in ids;
        } else {
          assert last in ids;
        }
      }
    }
  }

  // ---------------------------------------------------------------------
  // One round
  // ---------------------------------------------------------------------

  /** Every running child has its own process, its own event and a spec in force. */
  ghost predicate Sound(g: Group) {
    && UniqueIds(g.specs)
    && OneProcessEach(g)
    && g.children.Keys == g.events
    && (forall id :: id in g.children ==> g.children[id].spec in g.specs && g.children[id].spec.id == id)
    && (forall id :: id in g.children ==> g.children[id].process < g.spawned)
    && (forall p :: p in g.stopped ==> p < g.spawned)
  }

  lemma RunningIsEvents(g: Group)
    requires Sound(g)
    ensures Elements(Running(g)) == g.events && Distinct(Running(g))
  {
    var running := SpecsOf(g.specs, g.events);
    SpecsOfElements(g.specs, g.events);
    SpecsOfUnique(g.specs, g.events);
    forall id | id in g.events ensures id in Elements(Running(g)) {
      assert g.children[id].spec in running;
      assert running[0..] == running;
      TailElements(running, 0, g.children[id].spec);
    }
    forall id | id in Elements(Running(g)) ensures id in g.events {
      ElementsOfIds(running, id);
      var i :| 0 <= i < |running| && running[i].id == id;
      assert running[i] in running;
    }
  }

  lemma PositionOf(g: Group, id: Id) returns (j: nat)
    requires Elements(Running(g)) == g.events && id in g.events
    ensures j < |Running(g)| && Running(g)[j] == id
  {
    assert id in Elements(Running(g));
    j :| 0 <= j < |Running(g)| && Running(g)[j] == id;
  }

  /** The child at position `j` is the same process as before, dead or alive. */
  ghost predicate KeptAt(g: Group, g': Group, j: nat)
    requires j < |Running(g)|
  {
    var id := Running(g)[j];
    id in g.children && id in g'.children && g'.children[id] == g.children[id] && (Alive(g', id) <==> Alive(g, id))
  }

  /** The child at position `j` is a new process, the `j - i`th started. */
  ghost predicate FreshAt(g: Group, g': Group, i: nat, j: nat)
    requires i <= j < |Running(g)|
  {
    var id := Running(g)[j];
    id in g'.children && g'.children[id] == RunningChild(g.spawned + (j - i), SpecsOf(g.specs, g.events)[j])
      && Alive(g', id)
  }

  /** What restarting the children from position `i` on leaves behind. */
  ghost predicate Restarted(g: Group, g': Group, i: nat) {
    && i <= |Running(g)|
    && g'.specs == g.specs && g'.exited == g.exited && g'.terminating == g.terminating
    && g'.events == g.events && g'.children.Keys == g.children.Keys
    && g'.spawned == g.spawned + (|Running(g)| - i)
    && (forall j {:trigger KeptAt(g, g', j)} :: 0 <= j < i ==> KeptAt(g, g', j))
    && (forall j {:trigger FreshAt(g, g', i, j)} :: i <= j < |Running(g)| ==> FreshAt(g, g', i, j))
  }

  /** `RestartChildren` of a tail of the running ids, by its two halves. */
  lemma RestartHalves(g: Group, i: nat, running: seq<ChildSpec>)
    requires Sound(g) && i <= |Running(g)| && running == SpecsOf(g.specs, g.events)
    ensures var tail := Running(g)[i..];
            var g' := RestartChildren(g, tail, true);
            && g' == g.(stopped := ShutDownAll(g, tail).stopped, shutdowns := g.shutdowns + LivingBackwards(g, tail),
                        children := g'.children, spawned := g.spawned + (|Running(g)| - i))
            && g'.children.Keys == g.children.Keys
            && (forall id :: id in g.children && id !in Elements(tail) ==> g'.children[id] == g.children[id])
            && (forall k {:trigger StartedAt(g'.children, running[i..], g.spawned, k)} :: 0 <= k < |running| - i ==>
                  StartedAt(g'.children, running[i..], g.spawned, k))
  {
    var tail := Running(g)[i..];
    RunningIsEvents(g);
    assert Ids(running[i..]) == tail;
    SpecsOfTail(g.specs, g.events, i);
    SpecsOfUnique(g.specs, g.events);
    ShutDownAllStops(g, tail);
    var g1 := Forget(ShutDownAll(g, tail), Elements(tail));
    StartAllStarts(g1, running[i..]);
    var g' := RestartChildren(g, tail, true);
    assert g' == StartAll(g1, running[i..]);
    assert Elements(tail) <= Elements(Running(g));
    assert g'.events == g.events;
  }

  lemma RestartTail(g: Group, i: nat)
    requires Sound(g) && i <= |Running(g)|
    ensures var g' := RestartChildren(g, Running(g)[i..], true);
            && Restarted(g, g', i) && Sound(g')
            && g'.shutdowns == g.shutdowns + LivingBackwards(g, Running(g)[i..]) && g'.counted == g.counted
            && (forall p :: p in g'.stopped <==> p in g.stopped || p in LivingBackwards(g, Running(g)[i..]))
            && SameEnds(g, g')
  {
    var tail := Running(g)[i..];
    var g' := RestartChildren(g, tail, true);
    RestartHalves(g, i, SpecsOf(g.specs, g.events));
    RunningIsEvents(g);
    ShutDownAllStops(g, tail);
    LivingAreChildren(g, tail);
    forall j | 0 <= j < i ensures KeptAt(g, g', j) {
      KeptInTail(g, i, j);
    }
    forall j | i <= j < |Running(g)| ensures FreshAt(g, g', i, j) {
      FreshInTail(g, i, j);
    }
    SoundAfter(g, g', i);
  }

  lemma KeptInTail(g: Group, i: nat, j: nat)
    requires Sound(g) && j < i <= |Running(g)|
    ensures KeptAt(g, RestartChildren(g, Running(g)[i..], true), j)
  {
    RestartHalves(g, i, SpecsOf(g.specs, g.events));
    RunningIsEvents(g);
    ShutDownAllStops(g, Running(g)[i..]);
    KeptInFront(g, i, j);
  }

  /** Only processes started before are ever told to stop. */
  lemma OldOnesStopped(g: Group, ids: seq<Id>)
    requires Sound(g) && Distinct(ids)
    ensures forall p :: p in ShutDownAll(g, ids).stopped ==> p < g.spawned
  {
    ShutDownAllStops(g, ids);
    LivingAreChildren(g, ids);
  }

  lemma TailStarted(specs: seq<ChildSpec>, children: map<Id, RunningChild>, i: nat, j: nat, first: Instance)
    requires i <= j < |specs|
    requires forall k {:trigger StartedAt(children, specs[i..], first, k)} :: 0 <= k < |specs| - i ==>
               StartedAt(children, specs[i..], first, k)
    ensures specs[j].id in children && children[specs[j].id] == RunningChild(first + (j - i), specs[j])
  {
    assert StartedAt(children, specs[i..], first, j - i) && specs[i..][j - i] == specs[j];
  }

  lemma FreshInTail(g: Group, i: nat, j: nat)
    requires Sound(g) && i <= j < |Running(g)|
    ensures FreshAt(g, RestartChildren(g, Running(g)[i..], true), i, j)
  {
    var tail, running := Running(g)[i..], SpecsOf(g.specs, g.events);
    RestartHalves(g, i, running);
    RunningIsEvents(g);
    OldOnesStopped(g, tail);
    TailStarted(running, RestartChildren(g, tail, true).children, i, j, g.spawned);
  }

  lemma KeptInFront(g: Group, i: nat, j: nat)
    requires Sound(g) && j < i <= |Running(g)| && Distinct(Running(g)) && Elements(Running(g)) == g.events
    ensures var id := Running(g)[j];
            id in g.children && id !in Elements(Running(g)[i..])
              && g.children[id].process !in LivingBackwards(g, Running(g)[i..])
  {
    var ids := Running(g);
    var tail := ids[i..];
    assert ids[j] in Elements(ids);
    forall k | 0 <= k < |tail| ensures tail[k] != ids[j] {
      assert tail[k] == ids[i + k];
    }
    LivingAreChildren(g, tail);
  }

  lemma SoundAfter(g: Group, g': Group, i: nat)
    requires Sound(g) && Restarted(g, g', i) && Distinct(Running(g)) && Elements(Running(g)) == g.events
    requires forall p :: p in g'.stopped ==> p < g.spawned
    ensures Sound(g')
  {
    forall id | id in g'.children
      ensures g'.children[id].spec in g.specs && g'.children[id].spec.id == id && g'.children[id].process < g'.spawned
    {
      var j := PositionOf(g, id);
      SpecsOfElements(g.specs, g.events);
      assert SpecsOf(g.specs, g.events)[j] in SpecsOf(g.specs, g.events);
      if j < i { assert KeptAt(g, g', j); } else { assert FreshAt(g, g', i, j); }
    }
    forall a, b | a in g'.children && b in g'.children && g'.children[a].process == g'.children[b].process
      ensures a == b
    {
      SameProcess(g, g', i, a, b);
    }
  }

  lemma SameProcess(g: Group, g': Group, i: nat, a: Id, b: Id)
    requires Sound(g) && Restarted(g, g', i) && Elements(Running(g)) == g.events
    requires a in g'.children && b in g'.children && g'.children[a].process == g'.children[b].process
    ensures a == b
  {
    var j := PositionOf(g, a);
    var k := PositionOf(g, b);
    if j < i { assert KeptAt(g, g', j); } else { assert FreshAt(g, g', i, j); }
    if k < i { assert KeptAt(g, g', k); } else { assert FreshAt(g, g', i, k); }
  }
}
