/** A terminating supervisor: children are shut down, and whatever the loop still picks up,
    nothing is started and nothing counts. */
module Terminations {
  import opened Seqs

  import opened Strategies
  import opened StrategyDrain
  import opened StrategyRounds
  import opened StrategyRuns

  /** A round of a terminating group, under either strategy: the child is forgotten; no
      process is spawned, nobody is shut down, no failure counts and every spec stays. */
  lemma TerminatingRound(g: Group, strategy: Strategy, id: Id)
    requires g.terminating && id in Running(g)
    ensures Round(g, strategy, id) == g.(children := g.children - {id}, events := g.events - {id})
  {
    assert Elements([id]) == {id};
  }

  lemma TerminatingRoundOfStopped(g: Group, strategy: Strategy, id: Id)
    requires Sound(g) && g.terminating && id in StoppedIds(g)
    ensures Round(g, strategy, id) == g.(children := g.children - {id}, events := g.events - {id})
    ensures Sound(Round(g, strategy, id)) && StoppedIds(Round(g, strategy, id)) == StoppedIds(g) - {id}
  {
    StoppedHasPosition(g, id);
    TerminatingRound(g, strategy, id);
    var g' := Round(g, strategy, id);
    forall x ensures x in StoppedIds(g') <==> x in StoppedIds(g) && x != id {
    }
  }

  // ---------------------------------------------------------------------
  // Runs
  // ---------------------------------------------------------------------

  /** What may happen while `terminate` is under way: the loop's events, and its own two. */
  datatype Ending = Goes(event: Event) | ShutsDown(id: Id) | ForgetsChildren

  function NextEnding(g: Group, strategy: Strategy, e: Ending): Group {
    match e
    case Goes(event) => StrategyDrain.Next(g, strategy, event)
    case ShutsDown(id) => ShutDown(g, id)
    case ForgetsChildren => g.(children := map[])
  }

  function RunEnding(g: Group, strategy: Strategy, endings: seq<Ending>): Group
    decreases |endings|
  {
    if endings == [] then g else RunEnding(NextEnding(g, strategy, endings[0]), strategy, endings[1..])
  }

  /** Still terminating, with the same specs, nothing started and nothing counted; of the
      children some may be gone. */
  ghost predicate WindsDown(g: Group, g': Group) {
    && g'.terminating && g'.specs == g.specs && g'.exited == g.exited
    && g'.spawned == g.spawned && g'.counted == g.counted && g'.events <= g.events
    && (forall id :: id in g'.children ==> id in g.children && g'.children[id] == g.children[id])
  }

  lemma NextWindsDown(g: Group, strategy: Strategy, e: Ending)
    requires g.terminating
    ensures WindsDown(g, NextEnding(g, strategy, e))
  {
    match e
    case Goes(event) =>
      if event.Handles? && event.id in Running(g) {
        TerminatingRound(g, strategy, event.id);
      }
    case ShutsDown(id) =>
    case ForgetsChildren =>
  }

  /** From whatever group, once it is terminating: over every run, with children dying, being
      shut down and handled in any order, no process is spawned and no failure counts. */
  lemma {:induction false} NothingStartsAnew(g: Group, strategy: Strategy, endings: seq<Ending>)
    requires g.terminating
    ensures WindsDown(g, RunEnding(g, strategy, endings))
    decreases |endings|
  {
    if endings != [] {
      NextWindsDown(g, strategy, endings[0]);
      NothingStartsAnew(NextEnding(g, strategy, endings[0]), strategy, endings[1..]);
    }
  }

  // ---------------------------------------------------------------------
  // `terminate` itself
  // ---------------------------------------------------------------------

  /** Whoever runs is told to stop, last one first; no child is left, and only the events
      that the loop has yet to pick up. */
  lemma TerminatingTellsAll(g: Group)
    requires Sound(g)
    ensures var g' := Terminated(g);
            && g' == g.(terminating := true, children := map[], stopped := g'.stopped,
                        shutdowns := g.shutdowns + LivingBackwards(g, Running(g)))
            && (forall id :: id in g.children ==> g.children[id].process in g'.stopped)
            && StoppedIds(g') == g.events && Running(g') == Running(g)
  {
    var g1 := g.(terminating := true);
    RunningIsEvents(g);
    ShutDownAllStops(g1, Running(g));
    LivingElsewhere(g, g1, Running(g));
    var g2 := ShutDownAll(g1, Running(g));
    forall id | id in g.children ensures g.children[id].process in g2.stopped {
      assert id in Elements(Running(g));
      assert !Alive(g2, id);
    }
  }

  lemma {:induction false} DrainedRounds(g: Group, strategy: Strategy, picks: seq<Id>)
    requires g.terminating && Distinct(picks) && forall id :: id in picks ==> id in Running(g)
    ensures Rounds(g, strategy, picks)
         == g.(children := g.children - Elements(picks), events := g.events - Elements(picks))
    decreases |picks|
  {
    if picks == [] {
      assert Elements(picks) == {} && g.children - {} == g.children;
    } else {
      var g1 := Round(g, strategy, picks[0]);
      TerminatingRound(g, strategy, picks[0]);
      forall id | id in picks[1..] ensures id in Running(g1) {
        StillRunning(g, g1, picks[0], id);
      }
      DrainedRounds(g1, strategy, picks[1..]);
      assert Elements(picks) == {picks[0]} + Elements(picks[1..]);
      assert g.children - {picks[0]} - Elements(picks[1..]) == g.children - Elements(picks);
    }
  }

  lemma StillRunning(g: Group, g1: Group, gone: Id, id: Id)
    requires g1.specs == g.specs && g1.events == g.events - {gone} && id in Running(g) && id != gone
    ensures id in Running(g1)
  {
    var before, after := SpecsOf(g.specs, g.events), SpecsOf(g1.specs, g1.events);
    SpecsOfElements(g.specs, g.events);
    SpecsOfElements(g1.specs, g1.events);
    var i :| 0 <= i < |before| && before[i].id == id;
    assert before[i] in before && before[i] in after;
    var j :| 0 <= j < |after| && after[j] == before[i];
    assert Ids(after)[j] == id;
  }

  /** After `terminate`, in whatever order the loop picks the children up, as many rounds as
      there are running children leave nothing to wait for; all that happened is that the
      living ones were told to stop. */
  lemma TerminationDrains(g: Group, strategy: Strategy, picks: seq<Id>)
    requires Sound(g) && Distinct(picks) && Elements(picks) == g.events
    ensures var g' := Rounds(Terminated(g), strategy, picks);
            && g'.events == {} && g'.children == map[]
            && g'.spawned == g.spawned && g'.counted == g.counted && g'.specs == g.specs
            && g'.shutdowns == g.shutdowns + LivingBackwards(g, Running(g))
  {
    TerminatingTellsAll(g);
    RunningIsEvents(g);
    forall id | id in picks ensures id in Running(g) {
      assert id in Elements(picks) && id in Elements(Running(g));
    }
    DrainedRounds(Terminated(g), strategy, picks);
  }
}
