/** A supervisor's children as an object: the rounds of group restart as loops over its
    tables, proved against the functions on values. */
module Supervisors {
  import opened Seqs

  import opened Intensity
  import opened Strategies

  class GroupSupervisor {
    const strategy: Strategy
    var childSpecs: seq<ChildSpec>
    var exitedChildSpecs: set<Id>
    var terminating: bool
    var children: map<Id, RunningChild>
    var stoppedEvents: set<Id>
    /** The processes that have stopped, and whether they crashed. */
    var ends: map<Instance, bool>
    var spawned: nat
    ghost var shutdowns: seq<Instance>
    ghost var counted: seq<Instance>

    ghost function Value(): Group
      reads this
    {
      Group(childSpecs, exitedChildSpecs, terminating, children, stoppedEvents, ends, spawned, shutdowns, counted)
    }

    constructor (strategy: Strategy, specs: seq<ChildSpec>)
      ensures this.strategy == strategy
      ensures Value() == StartAll(Group(specs, {}, false, map[], {}, map[], 0, [], []), specs)
    {
      this.strategy := strategy;
      childSpecs, exitedChildSpecs, terminating := specs, {}, false;
      children, stoppedEvents, ends, spawned, shutdowns, counted := map[], {}, map[], 0, [], [];
      new;
      StartStrategyChildren(specs);
    }

    /** `_shutdown_child`, for the child of `id` if there is one. */
    method ShutdownChild(id: Id)
      modifies `ends, `shutdowns
      ensures Value() == ShutDown(old(Value()), id)
    {
      if id in children && children[id].process !in ends {
        var p := children[id].process;
        ends := ends[p := false];
        shutdowns := shutdowns + [p];
      }
    }

    method ShutdownBackwards(ids: seq<Id>)
      modifies `ends, `shutdowns
      ensures Value() == ShutDownAll(old(Value()), ids)
    {
      var i := |ids|;
      assert ids[..i] == ids;
      while 0 < i
        invariant 0 <= i <= |ids|
        invariant ShutDownAll(old(Value()), ids) == ShutDownAll(Value(), ids[..i])
      {
        i := i - 1;
        assert ids[..i + 1][..i] == ids[..i];
        ShutdownChild(ids[i]);
      }
    }

    /** `_start_strategy_children`: each child gets a new event and a new process. */
    method StartStrategyChildren(specs: seq<ChildSpec>)
      modifies `children, `stoppedEvents, `spawned
      ensures Value() == StartAll(old(Value()), specs)
    {
      var i := 0;
      while i < |specs|
        invariant 0 <= i <= |specs|
        invariant StartAll(old(Value()), specs) == StartAll(Value(), specs[i..])
      {
        assert specs[i..][1..] == specs[i + 1..];
        stoppedEvents := stoppedEvents + {specs[i].id};
        children := children[specs[i].id := RunningChild(spawned, specs[i])];
        spawned := spawned + 1;
        i := i + 1;
      }
    }

    method ForgetChildren(ids: seq<Id>)
      modifies `children, `stoppedEvents
      ensures Value() == Forget(old(Value()), Elements(ids))
    {
      var i := 0;
      assert Elements(ids[..0]) == {};
      assert old(children) - {} == old(children) && old(stoppedEvents) - {} == old(stoppedEvents);
      while i < |ids|
        invariant 0 <= i <= |ids|
        invariant Value() == Forget(old(Value()), Elements(ids[..i]))
      {
        assert ids[..i + 1] == ids[..i] + [ids[i]];
        assert Elements(ids[..i + 1]) == Elements(ids[..i]) + {ids[i]};
        children := children - {ids[i]};
        stoppedEvents := stoppedEvents - {ids[i]};
        i := i + 1;
      }
      assert ids[..i] == ids;
    }

    /** The specs of `ids`, in the order of `child_specs`. */
    method OrderedSpecs(ids: set<Id>) returns (specs: seq<ChildSpec>)
      ensures specs == SpecsOf(childSpecs, ids)
    {
      specs := [];
      var i := 0;
      while i < |childSpecs|
        invariant 0 <= i <= |childSpecs|
        invariant SpecsOf(childSpecs, ids) == specs + SpecsOf(childSpecs[i..], ids)
      {
        assert childSpecs[i..][1..] == childSpecs[i + 1..];
        if childSpecs[i].id in ids {
          assert specs + ([childSpecs[i]] + SpecsOf(childSpecs[i + 1..], ids))
            == specs + [childSpecs[i]] + SpecsOf(childSpecs[i + 1..], ids);
          specs := specs + [childSpecs[i]];
        }
        i := i + 1;
      }
    }

    /** `_restart_strategy_children` */
    method RestartStrategyChildren(ids: seq<Id>, restart: bool)
      modifies `ends, `shutdowns, `children, `stoppedEvents, `spawned
      ensures Value() == RestartChildren(old(Value()), ids, restart)
    {
      ShutdownBackwards(ids);
      ForgetChildren(ids);
      if restart {
        var specs := OrderedSpecs(Elements(ids));
        StartStrategyChildren(specs);
      }
    }

    /** `terminate` */
    method Terminate()
      modifies `terminating, `ends, `shutdowns, `children
      ensures Value() == Terminated(old(Value()))
    {
      terminating := true;
      var specs := OrderedSpecs(children.Keys);
      ShutdownBackwards(Ids(specs));
      children := map[];
    }

    method DropChildSpec(id: Id)
      modifies `childSpecs, `exitedChildSpecs
      ensures Value() == DropSpec(old(Value()), id)
    {
      exitedChildSpecs := exitedChildSpecs + {id};
      childSpecs := Except(childSpecs, id);
    }

    /** One iteration of `_one_for_all` for the stopped child `id`. */
    method OneForAllRound(id: Id, log: RestartLog, now: real) returns (failed: bool)
      requires strategy.OneForAll? && log.Valid() && (log.history != [] ==> log.history[|log.history| - 1] <= now)
      modifies this, log
      ensures log.Valid()
      ensures old(Decide(Value(), strategy, id)) != Restarting ==> !failed && log.history == old(log.history)
      ensures old(Decide(Value(), strategy, id)) == Restarting ==>
                log.history == old(log.history) + [now] && (failed <==> |log.times| > log.maxRestarts)
      ensures old(terminating) ==> !failed && log.history == old(log.history) && log.times == old(log.times)
      ensures id !in old(Running(Value())) ==> !failed && Value() == old(Value()) && log.history == old(log.history)
      ensures old(terminating) && id in old(Running(Value())) ==>
                Value() == old(Value()).(children := old(children) - {id}, events := old(stoppedEvents) - {id})
      ensures Value() == if failed then old(Value()) else Round(old(Value()), strategy, id)
    {
      failed := false;
      var running := OrderedSpecs(stoppedEvents);
      var ids := Ids(running);
      if id !in ids {
        return;
      }
      if terminating || id !in children {
        assert Elements([id]) == {id};
        ForgetChildren([id]);
        return;
      }
      var child := children[id];
      var crashed := child.process in ends && ends[child.process];
      if !ShouldRestart(crashed, child.spec) {
        DropChildSpec(id);
        RestartStrategyChildren(ids, false);
        return;
      }
      failed := RestartAll(id, ids, log, now);
    }

    method RestartAll(id: Id, ids: seq<Id>, log: RestartLog, now: real) returns (failed: bool)
      requires strategy.OneForAll? && log.Valid() && (log.history != [] ==> log.history[|log.history| - 1] <= now)
      requires ids == Running(Value()) && Decide(Value(), strategy, id) == Restarting
      modifies this, log
      ensures log.Valid() && log.history == old(log.history) + [now] && (failed <==> |log.times| > log.maxRestarts)
      ensures Value() == if failed then old(Value()) else Round(old(Value()), strategy, id)
    {
      failed := log.RecordRestart(now);
      if !failed {
        counted := counted + [children[id].process];
        RestartStrategyChildren(ids, true);
      }
    }

    /** One iteration of `_rest_for_one` for the stopped child `id`. */
    method RestForOneRound(id: Id, log: RestartLog, now: real) returns (failed: bool)
      requires strategy.RestForOne? && log.Valid() && (log.history != [] ==> log.history[|log.history| - 1] <= now)
      modifies this, log
      ensures log.Valid()
      ensures old(Decide(Value(), strategy, id)) != Restarting ==> !failed && log.history == old(log.history)
      ensures old(Decide(Value(), strategy, id)) == Restarting ==>
                log.history == old(log.history) + [now] && (failed <==> |log.times| > log.maxRestarts)
      ensures old(terminating) ==> !failed && log.history == old(log.history) && log.times == old(log.times)
      ensures id !in old(Running(Value())) ==> !failed && Value() == old(Value()) && log.history == old(log.history)
      ensures old(terminating) && id in old(Running(Value())) ==>
                Value() == old(Value()).(children := old(children) - {id}, events := old(stoppedEvents) - {id})
      ensures Value() == if failed then old(Value()) else Round(old(Value()), strategy, id)
    {
      failed := false;
      var running := OrderedSpecs(stoppedEvents);
      var ids := Ids(running);
      if id !in ids {
        return;
      }
      var idx := IndexOf(ids, id);
      var spec := running[idx];
      var crashed := id in children && children[id].process in ends && ends[children[id].process];
      if terminating {
        assert Elements([id]) == {id};
        ForgetChildren([id]);
        return;
      }
      if !ShouldRestart(crashed, spec) {
        DropChildSpec(id);
        assert Elements([id]) == {id};
        ForgetChildren([id]);
        return;
      }
      failed := log.RecordRestart(now);
      if !failed {
        RestartFrom(id, ids, idx);
      }
    }

    /** The later children are shut down, then all from the failed one on restarted. */
    method RestartFrom(id: Id, ids: seq<Id>, idx: nat)
      requires idx < |ids|
      modifies `ends, `shutdowns, `children, `stoppedEvents, `spawned, `counted
      ensures Value() == RestartRest(Counted(old(Value()), id), ids, idx)
    {
      if id in children {
        counted := counted + [children[id].process];
      }
      ShutdownBackwards(ids[idx + 1..]);
      RestartStrategyChildren(ids[idx..], true);
    }
  }
}
